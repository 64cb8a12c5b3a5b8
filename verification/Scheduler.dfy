/**
  The scheduler workers: every tick re-enqueues one batch. Without failures the d entries due
  by some time are gone after exactly ceil(d / 10) ticks from then on, whatever becomes due
  later. Every call is also a path of the stage's transition system, so the theorems about
  runs cover it.
*/
module Scheduler {
  import opened Jobs
  import opened Sets
  import opened Worker
  import opened RetryOrder
  import opened RedisTask
  import opened Stage

  /** One tick: the clock's second and what the calls of that ReEnqueue do. */
  datatype Tick = Tick(now: int, range: Outcome, adds: seq<Outcome>, rems: seq<Outcome>) {
    ghost predicate WellFormed() {
      |adds| == BATCH && |rems| == BATCH
    }

    ghost predicate Clean() {
      range.Ok() && (forall i :: 0 <= i < |adds| ==> adds[i].Ok()) && forall i :: 0 <= i < |rems| ==> rems[i].Applied()
    }
  }

  /** Due entries left of d after n clean ticks. */
  function Left(d: nat, n: nat): nat {
    if BATCH * n >= d then 0 else d - BATCH * n
  }

  /** The entry is due at some of these ticks. */
  ghost predicate EverDue(z: map<string, int>, m: string, ticks: seq<Tick>) {
    exists t :: t in ticks && m in DueSet(z, t.now)
  }

  /** How many of the ticks are clean. */
  ghost function CleanCount(ticks: seq<Tick>): nat {
    if ticks == [] then 0
    else
      var n := |ticks| - 1;
      CleanCount(ticks[..n]) + if ticks[n].Clean() then 1 else 0
  }

  /** Whatever the other ticks do, the clean ones take ten each of what is due by `due`. */
  ghost predicate DrainedDespite(z: map<string, int>, z': map<string, int>, ticks: seq<Tick>, due: int) {
    (forall t :: t in ticks ==> due <= t.now) ==> |DueSet(z', due)| <= Left(|DueSet(z, due)|, CleanCount(ticks))
  }

  /** Clean ticks at this time or later. */
  ghost predicate CleanFrom(ticks: seq<Tick>, due: int) {
    forall t :: t in ticks ==> t.Clean() && due <= t.now
  }

  /** Nothing becomes due between this time and the ticks. */
  ghost predicate Steady(z: map<string, int>, ticks: seq<Tick>, due: int) {
    forall t :: t in ticks ==> DueSet(z, t.now) == DueSet(z, due)
  }

  /** Entries only leave, and only those that were due at some tick. */
  ghost predicate Kept(z: map<string, int>, z': map<string, int>, ticks: seq<Tick>) {
    && (forall m :: m in z' ==> m in z && z'[m] == z[m])
    && (forall m :: m in z && m !in z' ==> EverDue(z, m, ticks))
  }

  /** After some clean ticks: of d entries due at their start ten per tick are gone, and a tick
      found nothing only if none of them was left; exactly then, if nothing else is due. */
  ghost predicate Drained(d: nat, left: nat, results: seq<Requeue>, steady: bool) {
    && left == Left(d, |results|)
    && (forall i :: 0 <= i < |results| && results[i] == NoMessageFound ==> Left(d, i) == 0)
    && (steady ==> forall i :: 0 <= i < |results| && Left(d, i) == 0 ==> results[i] == NoMessageFound)
  }

  class SchedulerWorkPool {
    const task: Task
    const queue: string
    const stream: string

    constructor (task: Task, queue: string, stream: string)
      ensures this.task == task && this.queue == queue && this.stream == stream
    {
      this.task, this.queue, this.stream := task, queue, stream;
    }

    ghost function Retries(): map<string, int>
      reads task
    {
      ZSetOf(task.zsets, queue)
    }

    ghost function Length(): nat
      reads task
    {
      |StreamOf(task.streams, stream).log|
    }

    /** One tick; `due` is any time up to the tick's. */
    method OneTick(t: Tick, ghost due: int)
      returns (r: Requeue, ghost out: set<string>, ghost moved: nat, ghost batch: seq<string>)
      requires task.Valid() && t.WellFormed()
      modifies task
      ensures task.Valid()
      ensures OnlyStream(old(task.streams), task.streams, stream)
      ensures OnlyZSet(old(task.zsets), task.zsets, queue)
      ensures out <= DueSet(old(Retries()), t.now) && Retries() == old(Retries()) - out
      ensures ReEnqueued(task.codec, old(Retries()), t.now, t.range, t.adds, t.rems, r, moved, batch)
      ensures out == Removed(batch, t.rems, moved)
      ensures StreamOf(task.streams, stream)
           == Appended(StreamOf(old(task.streams), stream), DecodeAll(task.codec, batch), Sent(t.adds, r, moved))
      ensures t.Clean() ==> Length() - old(Length()) == |out|
      ensures t.Clean() ==> (r == NoMessageFound <==> DueSet(old(Retries()), t.now) == {})
      ensures t.Clean() && due <= t.now ==> |DueSet(Retries(), due)| == Left(|DueSet(old(Retries()), due)|, 1)
    {
      ghost var z := Retries();
      var n;
      r, n, batch := task.ReEnqueue(queue, stream, t.now, t.range, t.adds, t.rems);
      moved, out := n, Removed(batch, t.rems, n);
      if r != RangeFailed {
        RemovedDue(z, t.now, batch, t.rems, moved);
      }
      if t.Clean() {
        CleanTick(z, due, t.now, batch, t, moved);
      }
    }

    /** One tick as the loop sees it: what left the set, and how much of what is due by `due`. */
    method Fire(t: Tick, ghost due: int) returns (r: Requeue, ghost out: set<string>)
      requires task.Valid() && t.WellFormed()
      modifies task
      ensures task.Valid()
      ensures OnlyStream(old(task.streams), task.streams, stream)
      ensures OnlyZSet(old(task.zsets), task.zsets, queue)
      ensures out <= DueSet(old(Retries()), t.now) && Retries() == old(Retries()) - out
      ensures r == RangeFailed <==> !t.range.Ok()
      ensures t.Clean() ==> Length() - old(Length()) == |old(Retries())| - |Retries()|
      ensures t.Clean() ==> (r == NoMessageFound <==> DueSet(old(Retries()), t.now) == {})
      ensures t.Clean() && due <= t.now ==> |DueSet(Retries(), due)| == Left(|DueSet(old(Retries()), due)|, 1)
    {
      ghost var z := Retries();
      ghost var moved; ghost var batch;
      r, out, moved, batch := OneTick(t, due);
      SizeStep(z, out);
    }

    /** The ticker loop; an error of one tick does not stop it. */
    method Run(ticks: seq<Tick>, ghost due: int) returns (results: seq<Requeue>)
      requires task.Valid() && forall t :: t in ticks ==> t.WellFormed()
      modifies task
      ensures task.Valid() && |results| == |ticks|
      ensures OnlyStream(old(task.streams), task.streams, stream)
      ensures OnlyZSet(old(task.zsets), task.zsets, queue)
      ensures Kept(old(Retries()), Retries(), ticks)
      ensures forall i :: 0 <= i < |results| ==> (results[i] == RangeFailed <==> !ticks[i].range.Ok())
      ensures DrainedDespite(old(Retries()), Retries(), ticks, due)
      ensures CleanFrom(ticks, due) ==> Length() - old(Length()) == |old(Retries())| - |Retries()|
      ensures CleanFrom(ticks, due) ==>
        Drained(|DueSet(old(Retries()), due)|, |DueSet(Retries(), due)|, results, Steady(old(Retries()), ticks, due))
    {
      results := [];
      ghost var z := Retries();
      for i := 0 to |ticks|
        invariant task.Valid() && |results| == i
        invariant OnlyStream(old(task.streams), task.streams, stream)
        invariant OnlyZSet(old(task.zsets), task.zsets, queue)
        invariant Progress(z, Retries(), ticks, i, due, Length() - old(Length()), results)
      {
        ghost var z0, sent := Retries(), Length() - old(Length());
        var r, out := Fire(ticks[i], due);
        ProgressStep(z, z0, out, ticks, i, due, sent, Length() - old(Length()), results, r);
        results := results + [r];
      }
      assert ticks[..|ticks|] == ticks;
    }
  }

  /** What is so after i ticks. */
  ghost predicate Progress(z: map<string, int>, z': map<string, int>, ticks: seq<Tick>, i: nat, due: int, sent: int, results: seq<Requeue>)
    requires i <= |ticks|
  {
    && |results| == i && Kept(z, z', ticks) && DrainedDespite(z, z', ticks[..i], due)
    && (forall j :: 0 <= j < i ==> (results[j] == RangeFailed <==> !ticks[j].range.Ok()))
    && (CleanFrom(ticks, due) ==>
          sent == |z| - |z'| && Drained(|DueSet(z, due)|, |DueSet(z', due)|, results, Steady(z, ticks, due)))
  }

  lemma ProgressStep(z: map<string, int>, z0: map<string, int>, out: set<string>, ticks: seq<Tick>, i: nat, due: int,
                     sent: int, sent': int, results: seq<Requeue>, r: Requeue)
    requires i < |ticks| && Progress(z, z0, ticks, i, due, sent, results) && out <= DueSet(z0, ticks[i].now)
    requires r == RangeFailed <==> !ticks[i].range.Ok()
    requires ticks[i].Clean() ==> sent' - sent == |z0| - |z0 - out|
    requires ticks[i].Clean() ==> (r == NoMessageFound <==> DueSet(z0, ticks[i].now) == {})
    requires ticks[i].Clean() && due <= ticks[i].now ==> |DueSet(z0 - out, due)| == Left(|DueSet(z0, due)|, 1)
    ensures Progress(z, z0 - out, ticks, i + 1, due, sent', results + [r])
  {
    assert ticks[i] in ticks;
    KeptStep(z, z0, ticks, i, out);
    CountStep(z, z0, out, due, ticks, i);
    if CleanFrom(ticks, due) {
      DueLess(z, z0, due, ticks[i].now);
      DrainStep(|DueSet(z, due)|, |DueSet(z0, due)|, |DueSet(z0 - out, due)|, results, r, Steady(z, ticks, due));
    }
  }

  /** A tick that fails takes nothing back, a clean one takes a batch. */
  lemma CountStep(z: map<string, int>, z0: map<string, int>, out: set<string>, due: int, ticks: seq<Tick>, i: nat)
    requires i < |ticks| && DrainedDespite(z, z0, ticks[..i], due)
    requires ticks[i].Clean() && due <= ticks[i].now ==> |DueSet(z0 - out, due)| == Left(|DueSet(z0, due)|, 1)
    ensures DrainedDespite(z, z0 - out, ticks[..i + 1], due)
  {
    SubsetSize(DueSet(z0 - out, due), DueSet(z0, due));
    assert ticks[..i + 1][..i] == ticks[..i] && ticks[..i + 1][i] == ticks[i];
    assert forall t :: t in ticks[..i] ==> t in ticks[..i + 1];
  }

  lemma DrainStep(d: nat, left: nat, less: nat, results: seq<Requeue>, r: Requeue, steady: bool)
    requires Drained(d, left, results, steady) && less == Left(left, 1)
    requires r == NoMessageFound ==> left == 0
    requires steady && left == 0 ==> r == NoMessageFound
    ensures Drained(d, less, results + [r], steady)
  {
  }

  lemma SizeStep(z: map<string, int>, out: set<string>)
    requires out <= z.Keys
    ensures |z - out| == |z| - |out|
  {
    assert z.Keys == (z - out).Keys + out;
    assert |z.Keys| == |(z - out).Keys| + |out|;
  }

  /** Fewer entries, the same relation between the two times. */
  lemma DueLess(z: map<string, int>, z0: map<string, int>, due: int, now: int)
    requires forall m :: m in z0 ==> m in z && z0[m] == z[m]
    ensures due <= now ==> DueSet(z0, due) <= DueSet(z0, now)
    ensures DueSet(z, now) == DueSet(z, due) ==> DueSet(z0, now) == DueSet(z0, due)
    ensures |DueSet(z0, due)| == 0 <==> DueSet(z0, due) == {}
  {
    if DueSet(z, now) == DueSet(z, due) {
      forall m | m in z0
        ensures m in DueSet(z0, now) <==> m in DueSet(z0, due)
      {
        assert m in DueSet(z, now) <==> m in DueSet(z, due);
      }
    }
  }

  lemma {:induction false} RemovedDue(z: map<string, int>, now: int, batch: seq<string>, rems: seq<Outcome>, n: nat)
    requires n <= |batch| && n <= |rems| && forall i :: 0 <= i < |batch| ==> batch[i] in DueSet(z, now)
    ensures Removed(batch, rems, n) <= DueSet(z, now)
  {
    if n > 0 {
      RemovedDue(z, now, batch, rems, n - 1);
    }
  }

  /** What a tick removes was due at that tick, from the start. */
  lemma KeptStep(z: map<string, int>, z0: map<string, int>, ticks: seq<Tick>, i: nat, out: set<string>)
    requires i < |ticks| && out <= DueSet(z0, ticks[i].now) && Kept(z, z0, ticks)
    ensures Kept(z, z0 - out, ticks)
  {
    forall m | m in out
      ensures EverDue(z, m, ticks)
    {
      assert ticks[i] in ticks && m in DueSet(z, ticks[i].now);
    }
  }

  /** A clean tick moves a whole batch, the earliest entries first. */
  lemma CleanTick(z: map<string, int>, due: int, now: int, batch: seq<string>, t: Tick, moved: nat)
    requires t.WellFormed() && t.Clean() && IsRange(z, now, BATCH, batch) && moved == |batch|
    ensures |Removed(batch, t.rems, moved)| == |batch|
    ensures due <= now ==> |DueSet(z - Removed(batch, t.rems, moved), due)| == Left(|DueSet(z, due)|, 1)
  {
    RemovedAll(batch, t.rems, moved);
    assert batch[..moved] == batch;
    MembersSize(batch);
    if due <= now {
      EarliestFirst(z, due, now, BATCH, batch);
      assert DueSet(z - Members(batch), due) == DueSet(z, due) - Members(batch);
    }
  }

  // ----- a ReEnqueue call is a path of the transition system

  /** The stage after the calls for the first n payloads, seen from outside. */
  ghost predicate MovedTo(s: State, t: State, batch: seq<Job>, rems: seq<Outcome>, n: nat)
    requires n <= |batch| && n <= |rems|
  {
    && t.st.stream == s.st.stream.(log := s.st.stream.log + batch[..n])
    && t.st.retry == s.st.retry - JobsRemoved(batch, rems, n)
    && t.st.(stream := s.st.stream, retry := s.st.retry) == s.st
    && t.workers == s.workers && t.h == s.h
  }

  function JobsRemoved(batch: seq<Job>, rems: seq<Outcome>, n: nat): set<Job>
    requires n <= |batch| && n <= |rems|
  {
    if n == 0 then {}
    else JobsRemoved(batch, rems, n - 1) + if rems[n - 1].Applied() then {batch[n - 1]} else {}
  }

  /** From a fetched batch, the next payload is handled by two steps. */
  lemma OnePayload(c: Config, s: State, k: nat, add: Outcome, rem: Outcome)
    requires k in s.scheds && s.scheds[k].Adding? && s.scheds[k].batch != [] && add.Ok()
    ensures
      var l0, l1 := Move(k, add), Move(k, rem);
      var batch := s.scheds[k].batch;
      && Enabled(s, l0) && Enabled(Next(c, s, l0), l1)
      && var t := Next(c, Next(c, s, l0), l1);
         && MovedTo(s, t, batch, [rem], 1)
         && t.scheds == s.scheds[k := if |batch| > 1 then Adding(batch[1..]) else Resting]
  {
    assert JobsRemoved(s.scheds[k].batch, [rem], 1) == if rem.Applied() then {s.scheds[k].batch[0]} else {};
  }

  lemma {:induction false} JobsRemovedFront(batch: seq<Job>, rems: seq<Outcome>, n: nat)
    requires 1 <= n <= |batch| && n <= |rems|
    ensures JobsRemoved(batch, rems, n) == JobsRemoved(batch, [rems[0]], 1) + JobsRemoved(batch[1..], rems[1..], n - 1)
  {
    assert JobsRemoved(batch, [rems[0]], 1) == if rems[0].Applied() then {batch[0]} else {};
    if n > 1 {
      JobsRemovedFront(batch, rems, n - 1);
    } else {
      assert JobsRemoved(batch, rems, 1) == JobsRemoved(batch, rems, 0) + if rems[0].Applied() then {batch[0]} else {};
    }
  }

  /** The moves of n payloads, with the outcomes of their XADDs and ZREMs. */
  function MoveCalls(k: nat, adds: seq<Outcome>, rems: seq<Outcome>, n: nat): seq<Label>
    requires n <= |adds| && n <= |rems|
  {
    if n == 0 then [] else [Move(k, adds[0])] + ([Move(k, rems[0])] + MoveCalls(k, adds[1..], rems[1..], n - 1))
  }

  /** The loop over n payloads that were appended is a path of 2n scheduler steps. */
  lemma {:induction false} LoopIsPath(c: Config, s: State, k: nat, adds: seq<Outcome>, rems: seq<Outcome>, n: nat)
    returns (ls: seq<Label>)
    requires k in s.scheds && s.scheds[k].Adding? && 1 <= n <= |s.scheds[k].batch|
    requires n <= |adds| && n <= |rems| && forall i :: 0 <= i < n ==> adds[i].Ok()
    ensures ls == MoveCalls(k, adds, rems, n)
    ensures Legal(c, s, ls) && MovedTo(s, Run(c, s, ls), s.scheds[k].batch, rems, n)
    ensures Run(c, s, ls).scheds ==
      s.scheds[k := if n < |s.scheds[k].batch| then Adding(s.scheds[k].batch[n..]) else Resting]
    decreases n
  {
    var batch := s.scheds[k].batch;
    OnePayload(c, s, k, adds[0], rems[0]);
    var t := Next(c, Next(c, s, Move(k, adds[0])), Move(k, rems[0]));
    var rest := [];
    JobsRemovedFront(batch, rems, n);
    assert batch[..n] == batch[..1] + batch[1..][..n - 1];
    if n > 1 {
      rest := LoopIsPath(c, t, k, adds[1..], rems[1..], n - 1);
      assert batch[1..][n - 1..] == batch[n..];
    }
    ls := TwoMore(c, s, Move(k, adds[0]), Move(k, rems[0]), rest);
  }

  lemma TwoMore(c: Config, s: State, l0: Label, l1: Label, rest: seq<Label>) returns (ls: seq<Label>)
    requires Enabled(s, l0) && Enabled(Next(c, s, l0), l1) && Legal(c, Next(c, Next(c, s, l0), l1), rest)
    ensures ls == [l0] + ([l1] + rest)
    ensures Legal(c, s, ls) && Run(c, s, ls) == Run(c, Next(c, Next(c, s, l0), l1), rest)
  {
    ls := [l0] + ([l1] + rest);
    var mid := Next(c, s, l0);
    assert ([l1] + rest)[1..] == rest && ls[1..] == [l1] + rest;
    assert Legal(c, mid, [l1] + rest) && Run(c, mid, [l1] + rest) == Run(c, Next(c, mid, l1), rest);
  }

  lemma {:induction false} Extend(c: Config, s: State, ls: seq<Label>, l: Label)
    requires Legal(c, s, ls) && Enabled(Run(c, s, ls), l)
    ensures Legal(c, s, ls + [l]) && Run(c, s, ls + [l]) == Next(c, Run(c, s, ls), l)
    decreases |ls|
  {
    if ls == [] {
      assert ls + [l] == [l] && [l][1..] == [];
      assert Legal(c, Next(c, s, l), []);
    } else {
      assert (ls + [l])[1..] == ls[1..] + [l];
      Extend(c, Next(c, s, ls[0]), ls[1..], l);
    }
  }

  lemma Prepend(c: Config, s: State, l: Label, ls: seq<Label>)
    requires Enabled(s, l) && Legal(c, Next(c, s, l), ls)
    ensures Legal(c, s, [l] + ls) && Run(c, s, [l] + ls) == Run(c, Next(c, s, l), ls)
  {
    assert ([l] + ls)[1..] == ls;
  }

  /** Removing members removes the jobs they encode. */
  lemma {:induction false} RemovedDecoded(k: Codec, z: map<string, int>, batch: seq<string>, rems: seq<Outcome>, n: nat)
    requires RoundTrips(k) && Encoded(k, z) && n <= |batch| && n <= |rems|
    requires forall i :: 0 <= i < |batch| ==> k.decode(batch[i]).Some? && k.encode(k.decode(batch[i]).value) == batch[i]
    ensures forall job :: job in JobsRemoved(DecodeAll(k, batch), rems, n) <==> k.encode(job) in Removed(batch, rems, n)
    decreases n
  {
    if n > 0 {
      RemovedDecoded(k, z, batch, rems, n - 1);
      forall job | k.encode(job) == batch[n - 1]
        ensures job == DecodeAll(k, batch)[n - 1]
      {
        assert k.decode(k.encode(job)) == Some(job);
      }
    }
  }

  lemma DecodedLess(k: Codec, z: map<string, int>, batch: seq<string>, rems: seq<Outcome>, n: nat)
    requires RoundTrips(k) && Encoded(k, z) && n <= |batch| && n <= |rems|
    requires forall i :: 0 <= i < |batch| ==> k.decode(batch[i]).Some? && k.encode(k.decode(batch[i]).value) == batch[i]
    ensures Decoded(k, z - Removed(batch, rems, n)) == Decoded(k, z) - JobsRemoved(DecodeAll(k, batch), rems, n)
  {
    RemovedDecoded(k, z, batch, rems, n);
  }

  /** The call between its fetch and its failing append, if there is one. */
  lemma MovesArePath(c: Config, s: State, k: nat, adds: seq<Outcome>, rems: seq<Outcome>, moved: nat, failed: bool)
    returns (ls: seq<Label>)
    requires k in s.scheds && s.scheds[k].Adding? && s.scheds[k].batch != [] && moved <= |s.scheds[k].batch|
    requires moved <= |rems| && (if failed then moved < |s.scheds[k].batch| else moved == |s.scheds[k].batch|)
    requires |s.scheds[k].batch| <= |adds| && forall i :: 0 <= i < moved ==> adds[i].Ok()
    requires failed ==> !adds[moved].Ok()
    ensures ls == MoveCalls(k, adds, rems, moved) + if failed then [Move(k, adds[moved])] else []
    ensures Legal(c, s, ls)
    ensures
      var t, batch := Run(c, s, ls), s.scheds[k].batch;
      && t.st.stream == s.st.stream.(log := s.st.stream.log + batch[..if failed && adds[moved].Applied() then moved + 1 else moved])
      && t.st.retry == s.st.retry - JobsRemoved(batch, rems, moved)
      && t == s.(st := s.st.(stream := t.st.stream, retry := t.st.retry), scheds := s.scheds[k := Resting])
  {
    var batch := s.scheds[k].batch;
    if moved == 0 {
      ls := [];
      assert s.st.retry - {} == s.st.retry && s.st.stream.log + [] == s.st.stream.log;
      assert s.scheds == s.scheds[k := Adding(batch[0..])];
    } else {
      ls := LoopIsPath(c, s, k, adds, rems, moved);
    }
    if failed {
      var t := Run(c, s, ls);
      Extend(c, s, ls, Move(k, adds[moved]));
      ls := ls + [Move(k, adds[moved])];
      assert batch[moved..][0] == batch[moved];
      assert batch[..moved + 1] == batch[..moved] + [batch[moved]];
    }
  }

  /** Every call of ReEnqueue, a failing append included, is a path: what it fetches, appends and
      removes is what the scheduler's steps do to the stage that the keys hold. */
  lemma CallIsPath(c: Config, s: State, k: nat, codec: Codec, z: map<string, int>, now: int, range: Outcome,
                   adds: seq<Outcome>, rems: seq<Outcome>, r: Requeue, moved: nat, batch: seq<string>)
    returns (ls: seq<Label>)
    requires RoundTrips(codec) && Encoded(codec, z) && s.st.retry == Decoded(codec, z)
    requires k in s.scheds && s.scheds[k] == Resting
    requires ReEnqueued(codec, z, now, range, adds, rems, r, moved, batch)
    ensures Encoded(codec, z - Removed(batch, rems, moved)) && Legal(c, s, ls)
    ensures Run(c, s, ls) == s.(st := s.st.(
      stream := Appended(s.st.stream, DecodeAll(codec, batch), Sent(adds, r, moved)),
      retry := Decoded(codec, z - Removed(batch, rems, moved))))
    ensures ls == if batch == [] then []
                  else [Fetch(k, now, DecodeAll(codec, batch))]
                       + (MoveCalls(k, adds, rems, moved) + if r == AddFailed then [Move(k, adds[moved])] else [])
  {
    if batch == [] {
      ls := [];
      assert z - {} == z && s.st.stream.log + [] == s.st.stream.log;
    } else {
      RangeIsBatch(codec, z, now, batch);
      DecodedLess(codec, z, batch, rems, moved);
      ls := FetchedIsPath(c, s, k, now, DecodeAll(codec, batch), adds, rems, moved, r == AddFailed);
    }
  }

  lemma FetchedIsPath(c: Config, s: State, k: nat, now: int, jobs: seq<Job>, adds: seq<Outcome>, rems: seq<Outcome>,
                      moved: nat, failed: bool)
    returns (ls: seq<Label>)
    requires Enabled(s, Fetch(k, now, jobs)) && moved <= |jobs| <= |adds| && |jobs| <= |rems|
    requires forall i :: 0 <= i < moved ==> adds[i].Ok()
    requires if failed then moved < |jobs| && !adds[moved].Ok() else moved == |jobs|
    ensures ls == [Fetch(k, now, jobs)] + (MoveCalls(k, adds, rems, moved) + if failed then [Move(k, adds[moved])] else [])
    ensures Legal(c, s, ls)
    ensures Run(c, s, ls) == s.(st := s.st.(
      stream := Appended(s.st.stream, jobs, if failed && adds[moved].Applied() then moved + 1 else moved),
      retry := s.st.retry - JobsRemoved(jobs, rems, moved)))
  {
    var fetch := Fetch(k, now, jobs);
    var t := Next(c, s, fetch);
    var rest := MovesArePath(c, t, k, adds, rems, moved, failed);
    Prepend(c, s, fetch, rest);
    ls := [fetch] + rest;
    assert t.scheds[k := Resting] == s.scheds;
  }
}
