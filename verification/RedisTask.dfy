/**
  Task: the Redis side of the pipeline, streams by name and sorted sets by name. Each method
  is one call or one loop of calls; the outcomes of the calls are parameters.
*/
module RedisTask {
  import opened Jobs
  import opened Backoff
  import opened RetryOrder
  import Stage

  datatype Message = Message(messageId: nat, payload: Job)

  /** How ScheduleRetry ends: it can also panic, before it calls Redis. */
  datatype Ending = Success | Error | Panicked

  /** How ReEnqueue ends. */
  datatype Requeue = Moved | NoMessageFound | RangeFailed | DecodeFailed | AddFailed

  function RetryKey(stream: string): string {
    "retry_" + stream
  }

  function StreamOf(streams: map<string, Stream>, name: string): Stream {
    if name in streams then streams[name] else EMPTY_STREAM
  }

  function ZSetOf(zsets: map<string, map<string, int>>, key: string): map<string, int> {
    if key in zsets then zsets[key] else map[]
  }

  /** The members taken out while the first n payloads were handled. */
  function Removed(batch: seq<string>, rems: seq<Outcome>, n: nat): set<string>
    requires n <= |batch| && n <= |rems|
  {
    if n == 0 then {}
    else Removed(batch, rems, n - 1) + if rems[n - 1].Applied() then {batch[n - 1]} else {}
  }

  lemma {:induction false} RemovedAll(batch: seq<string>, rems: seq<Outcome>, n: nat)
    requires n <= |batch| && n <= |rems| && forall i :: 0 <= i < n ==> rems[i].Applied()
    ensures Removed(batch, rems, n) == Members(batch[..n])
  {
    if n > 0 {
      RemovedAll(batch, rems, n - 1);
      assert Members(batch[..n]) == Members(batch[..n - 1]) + {batch[n - 1]};
    }
  }

  class Task {
    const codec: Codec
    var streams: map<string, Stream>
    var zsets: map<string, map<string, int>>

    ghost predicate Valid()
      reads this
    {
      RoundTrips(codec) && forall key :: key in zsets ==> Encoded(codec, zsets[key])
    }

    constructor (codec: Codec)
      requires RoundTrips(codec)
      ensures Valid() && this.codec == codec && streams == map[] && zsets == map[]
    {
      this.codec := codec;
      streams, zsets := map[], map[];
    }

    method Add(job: Job, stream: string, o: Outcome) returns (ok: bool)
      requires Valid()
      modifies this`streams
      ensures Valid() && ok == o.Ok()
      ensures streams == if o.Applied() then old(streams)[stream := StreamOf(old(streams), stream).Add(job)] else old(streams)
      ensures StreamOf(streams, stream).log == StreamOf(old(streams), stream).log + if o.Applied() then [job] else []
    {
      if o.Applied() {
        streams := streams[stream := StreamOf(streams, stream).Add(job)];
      }
      ok := o.Ok();
    }

    /** Asks for new entries only; with nothing new it would block, here: no message. */
    method Read(stream: string, o: Outcome) returns (msg: Option<Message>)
      requires Valid()
      modifies this`streams
      ensures Valid()
      ensures var s := StreamOf(old(streams), stream); var next := s.FirstFrom(s.cursor);
        if next.None? || !o.Applied() then streams == old(streams) && msg.None?
        else
          && streams == old(streams)[stream := s.Deliver(next.value)]
          && msg == if o.Ok() then Some(Message(next.value, s.log[next.value])) else None
      ensures var s, t := StreamOf(old(streams), stream), StreamOf(streams, stream); var next := s.FirstFrom(s.cursor);
        next.Some? && o.Applied() ==>
          && t.cursor == next.value + 1 && t.pending == s.pending + {next.value} && t.log == s.log
          && forall i :: t.Has(i) <==> s.Has(i)
    {
      var s := StreamOf(streams, stream);
      var id := s.cursor;
      while id < |s.log| && id in s.deleted
        invariant s.FirstFrom(s.cursor) == s.FirstFrom(id)
        decreases |s.log| - id
      {
        id := id + 1;
      }
      if id >= |s.log| || !o.Applied() {
        return None;
      }
      streams := streams[stream := s.Deliver(id)];
      msg := if o.Ok() then Some(Message(id, s.log[id])) else None;
    }

    method Ack(id: nat, stream: string, o: Outcome) returns (ok: bool)
      requires Valid()
      modifies this`streams
      ensures Valid() && ok == o.Ok()
      ensures streams == if o.Applied() then old(streams)[stream := StreamOf(old(streams), stream).Ack(id)] else old(streams)
      ensures var s, t := StreamOf(old(streams), stream), StreamOf(streams, stream);
        && t.pending == (if o.Applied() then s.pending - {id} else s.pending)
        && t.log == s.log && t.cursor == s.cursor && forall i :: t.Has(i) <==> s.Has(i)
    {
      if o.Applied() {
        streams := streams[stream := StreamOf(streams, stream).Ack(id)];
      }
      ok := o.Ok();
    }

    method Delete(id: nat, stream: string, o: Outcome) returns (ok: bool)
      requires Valid()
      modifies this`streams
      ensures Valid() && ok == o.Ok()
      ensures streams == if o.Applied() then old(streams)[stream := StreamOf(old(streams), stream).Delete(id)] else old(streams)
      ensures var s, t := StreamOf(old(streams), stream), StreamOf(streams, stream);
        && (forall i :: t.Has(i) <==> s.Has(i) && !(o.Applied() && i == id))
        && t.log == s.log && t.cursor == s.cursor && t.pending == s.pending
    {
      if o.Applied() {
        streams := streams[stream := StreamOf(streams, stream).Delete(id)];
      }
      ok := o.Ok();
    }

    /** ZADD of the encoded job to the stream's retry set, due when the backoff ends. */
    method ScheduleRetry(job: Job, stream: string, o: Outcome, clock: int, draw: nat) returns (end: Ending)
      requires Valid()
      modifies this`zsets
      ensures Valid()
      ensures var delay := CalculateBackoffDelay(job.retryCounts, draw); var key := RetryKey(stream);
        if delay.Panic? then end == Panicked && zsets == old(zsets)
        else
          && end == (if o.Ok() then Success else Error)
          && zsets == if o.Applied()
                      then old(zsets)[key := ZSetOf(old(zsets), key)[codec.encode(job) := RunAt(clock, delay.ns)]]
                      else old(zsets)
      ensures var delay := CalculateBackoffDelay(job.retryCounts, draw); var key := "retry_" + stream;
        delay.Wait? && o.Applied() ==>
          && key in zsets && codec.encode(job) in zsets[key]
          && zsets[key][codec.encode(job)] * SECOND <= clock + delay.ns < (zsets[key][codec.encode(job)] + 1) * SECOND
    {
      var delay := CalculateBackoffDelay(job.retryCounts, draw);
      if delay.Panic? {
        return Panicked;
      }
      var runAt := RunAt(clock, delay.ns);
      RunAtBounds(clock, delay.ns);
      if o.Applied() {
        var key := RetryKey(stream);
        zsets := zsets[key := ZSetOf(zsets, key)[codec.encode(job) := runAt]];
      }
      end := if o.Ok() then Success else Error;
    }

    method ZRangeByScore(key: string, now: int, count: nat) returns (batch: seq<string>)
      requires Valid()
      ensures IsRange(ZSetOf(zsets, key), now, count, batch)
    {
      var z := ZSetOf(zsets, key);
      var rest := DueSet(z, now);
      batch := [];
      while rest != {} && |batch| < count
        invariant |batch| <= count
        invariant Members(batch) + rest == DueSet(z, now) && Members(batch) !! rest
        invariant forall i :: 0 <= i < |batch| ==> batch[i] in z
        invariant forall i, j :: 0 <= i < j < |batch| ==> batch[i] != batch[j] && Before(z, batch[i], batch[j])
        invariant forall i, m :: 0 <= i < |batch| && m in rest ==> batch[i] in z && Before(z, batch[i], m)
        invariant forall i :: 0 <= i < |batch| ==> batch[i] in Members(batch)
        decreases rest
      {
        FirstExists(z, rest);
        var m :| m in rest && IsFirst(z, rest, m);
        ghost var before := batch;
        batch := batch + [m];
        rest := rest - {m};
        assert Members(batch) == Members(before) + {m};
      }
    }

    /** The batch goes back to the stream, payload by payload: XADD, whose failure ends the
        call, then ZREM, whose result nobody looks at. */
    method MovePayloads(payloads: seq<string>, queue: string, stream: string, adds: seq<Outcome>, rems: seq<Outcome>)
      returns (r: Requeue, moved: nat)
      requires Valid() && |payloads| <= |adds| && |payloads| <= |rems|
      requires forall i :: 0 <= i < |payloads| ==> codec.decode(payloads[i]).Some?
      modifies this
      ensures Valid()
      ensures r == Moved || r == AddFailed
      ensures r == Moved ==> moved == |payloads|
      ensures r == AddFailed ==> moved < |payloads| && !adds[moved].Ok()
      ensures moved <= |payloads| && forall i :: 0 <= i < moved ==> adds[i].Ok()
      ensures OnlyStream(old(streams), streams, stream)
      ensures OnlyZSet(old(zsets), zsets, queue)
      ensures StreamOf(streams, stream) == Appended(StreamOf(old(streams), stream), DecodeAll(codec, payloads), Sent(adds, r, moved))
      ensures ZSetOf(zsets, queue) == ZSetOf(old(zsets), queue) - Removed(payloads, rems, moved)
    {
      moved := 0;
      ghost var s := StreamOf(streams, stream);
      ghost var z := ZSetOf(zsets, queue);
      ghost var jobs := DecodeAll(codec, payloads);
      while moved < |payloads|
        invariant moved <= |payloads| && Valid()
        invariant forall i :: 0 <= i < moved ==> adds[i].Ok()
        invariant OnlyStream(old(streams), streams, stream)
        invariant OnlyZSet(old(zsets), zsets, queue)
        invariant StreamOf(streams, stream) == Appended(s, jobs, moved)
        invariant ZSetOf(zsets, queue) == z - Removed(payloads, rems, moved)
      {
        var job := codec.decode(payloads[moved]);
        if job.None? {
          return DecodeFailed, moved;
        }
        AppendNext(s, jobs, moved);
        var ok := Add(job.value, stream, adds[moved]);
        if !ok {
          return AddFailed, moved;
        }
        if rems[moved].Applied() {
          RemoveOne(z, payloads, rems, moved);
          zsets := zsets[queue := ZSetOf(zsets, queue) - {payloads[moved]}];
        }
        moved := moved + 1;
      }
      r := Moved;
    }

    /** Re-enqueues what is due: nothing else is touched, and the payloads moved are the first
        ones in (score, member) order. Its decode error cannot happen. */
    method ReEnqueue(queue: string, stream: string, now: int, range: Outcome, adds: seq<Outcome>, rems: seq<Outcome>)
      returns (r: Requeue, moved: nat, ghost batch: seq<string>)
      requires Valid() && |adds| == Stage.BATCH && |rems| == Stage.BATCH
      modifies this
      ensures Valid()
      ensures OnlyStream(old(streams), streams, stream)
      ensures OnlyZSet(old(zsets), zsets, queue)
      ensures ReEnqueued(codec, ZSetOf(old(zsets), queue), now, range, adds, rems, r, moved, batch)
      ensures StreamOf(streams, stream) == Appended(StreamOf(old(streams), stream), DecodeAll(codec, batch), Sent(adds, r, moved))
      ensures ZSetOf(zsets, queue) == ZSetOf(old(zsets), queue) - Removed(batch, rems, moved)
    {
      if !range.Ok() {
        return RangeFailed, 0, [];
      }
      var payloads := ZRangeByScore(queue, now, Stage.BATCH);
      batch := payloads;
      RangeDecodes(codec, ZSetOf(zsets, queue), now, Stage.BATCH, payloads);
      NothingDue(ZSetOf(zsets, queue), now, Stage.BATCH, payloads);
      if |payloads| == 0 {
        return NoMessageFound, 0, batch;
      }
      r, moved := MovePayloads(payloads, queue, stream, adds, rems);
    }
  }

  /** How a call of ReEnqueue ends, what it fetched and how far it got. */
  ghost predicate ReEnqueued(k: Codec, z: map<string, int>, now: int, range: Outcome, adds: seq<Outcome>, rems: seq<Outcome>,
                             r: Requeue, moved: nat, batch: seq<string>)
  {
    && |batch| <= Stage.BATCH == |adds| == |rems|
    && (forall i :: 0 <= i < |batch| ==> k.decode(batch[i]).Some?)
    && r != DecodeFailed
    && (range.Ok() <==> r != RangeFailed)
    && (!range.Ok() ==> moved == 0 && batch == [])
    && (range.Ok() ==> IsRange(z, now, Stage.BATCH, batch))
    && (r == NoMessageFound <==> range.Ok() && DueSet(z, now) == {})
    && (r == Moved || r == NoMessageFound ==> moved == |batch|)
    && (r == Moved ==> batch != [])
    && (r == AddFailed ==> moved < |batch| && !adds[moved].Ok())
    && moved <= |batch| && forall i :: 0 <= i < moved ==> adds[i].Ok()
  }

  /** The stream after the first n of these jobs were appended to it. */
  function Appended(s: Stream, jobs: seq<Job>, n: nat): Stream
    requires n <= |jobs|
  {
    s.(log := s.log + jobs[..n])
  }

  lemma AppendNext(s: Stream, jobs: seq<Job>, n: nat)
    requires n < |jobs|
    ensures Appended(s, jobs, n).Add(jobs[n]) == Appended(s, jobs, n + 1)
  {
    assert jobs[..n + 1] == jobs[..n] + [jobs[n]];
  }

  /** How many XADDs took effect: the one that failed may have, with its reply lost. */
  function Sent(adds: seq<Outcome>, r: Requeue, moved: nat): nat {
    if r == AddFailed && moved < |adds| && adds[moved].Applied() then moved + 1 else moved
  }

  ghost predicate OnlyStream(before: map<string, Stream>, after: map<string, Stream>, name: string) {
    forall n :: n != name ==> StreamOf(after, n) == StreamOf(before, n)
  }

  ghost predicate OnlyZSet(before: map<string, map<string, int>>, after: map<string, map<string, int>>, key: string) {
    forall k :: k != key ==> ZSetOf(after, k) == ZSetOf(before, k)
  }

  lemma RemoveOne(z: map<string, int>, batch: seq<string>, rems: seq<Outcome>, n: nat)
    requires n < |batch| && n < |rems| && rems[n].Applied()
    ensures z - Removed(batch, rems, n) - {batch[n]} == z - Removed(batch, rems, n + 1)
  {
  }
}
