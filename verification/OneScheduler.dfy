/**
  One scheduler at work is as good as atomic re-enqueues. An entry it has appended and not
  yet removed counts as removed already; seen so, every step of a stage with one scheduler
  is a step with atomic re-enqueues, or none at all. What holds of atomic runs therefore
  holds of the code's own two calls.
*/
module OneScheduler {
  import opened Jobs
  import opened Sets
  import opened Worker
  import opened Stage
  import opened Records
  import opened UniqueCopy
  import opened Multiplicity
  import Backoff
  import opened StageBudget
  import P = Pipeline

  // ----- an undisturbed call

  function Atomics(batch: seq<Job>, now: int): seq<Label> {
    if batch == [] then [] else [MoveAtomic(batch[0], now)] + Atomics(batch[1..], now)
  }

  function Moves(k: nat, n: nat): seq<Label> {
    if n == 0 then [] else [Move(k, Done), Move(k, Done)] + Moves(k, n - 1)
  }

  /** The moves of a fetched batch do what as many atomic moves do. */
  lemma {:induction false} MovesAreAtomic(c: Config, s: State, t: State, k: nat, batch: seq<Job>, now: int)
    requires k in s.scheds && s.scheds[k] == (if batch == [] then Resting else Adding(batch))
    requires forall i :: 0 <= i < |batch| ==> Due(s.st.retry, now, batch[i])
    requires forall i, j :: 0 <= i < j < |batch| ==> batch[i] != batch[j]
    requires t == s.(scheds := s.scheds[k := Resting])
    ensures Legal(c, s, Moves(k, |batch|)) && Legal(c, t, Atomics(batch, now))
    ensures Run(c, s, Moves(k, |batch|)) == Run(c, t, Atomics(batch, now))
    decreases batch
  {
    if batch != [] {
      var a := Next(c, s, Move(k, Done));
      var b := Next(c, a, Move(k, Done));
      var u := Next(c, t, MoveAtomic(batch[0], now));
      var rest := Moves(k, |batch| - 1);
      assert Moves(k, |batch|) == [Move(k, Done)] + ([Move(k, Done)] + rest);
      assert ([Move(k, Done)] + rest)[1..] == rest;
      assert Moves(k, |batch|)[1..] == [Move(k, Done)] + rest;
      assert Atomics(batch, now)[1..] == Atomics(batch[1..], now);
      assert u == b.(scheds := b.scheds[k := Resting]);
      MovesAreAtomic(c, b, u, k, batch[1..], now);
      assert Legal(c, a, [Move(k, Done)] + rest);
    } else {
      assert s == t;
    }
  }

  /** A whole call of ReEnqueue that nobody disturbs does what atomic moves of its batch do. */
  lemma CallIsAtomic(c: Config, s: State, k: nat, now: int, batch: seq<Job>)
    requires Enabled(s, Fetch(k, now, batch))
    ensures Legal(c, s, [Fetch(k, now, batch)] + Moves(k, |batch|)) && Legal(c, s, Atomics(batch, now))
    ensures Run(c, s, [Fetch(k, now, batch)] + Moves(k, |batch|)) == Run(c, s, Atomics(batch, now))
  {
    var t := Next(c, s, Fetch(k, now, batch));
    assert s == t.(scheds := t.scheds[k := Resting]);
    MovesAreAtomic(c, t, s, k, batch, now);
    assert ([Fetch(k, now, batch)] + Moves(k, |batch|))[1..] == Moves(k, |batch|);
  }

  // ----- a call that workers disturb

  /** The entries that were appended and are about to be removed. */
  ghost function Heads(s: State): set<Job> {
    set k | k in s.scheds && s.scheds[k].Removing? && s.scheds[k].batch != [] :: s.scheds[k].batch[0]
  }

  /** The stage without them, all schedulers at rest. */
  ghost function Settled(s: State): State {
    s.(st := s.st.(retry := s.st.retry - Heads(s)), scheds := map k | k in s.scheds :: Resting)
  }

  /** What a scheduler still has to move waits in the retry set, and what it has appended is
      in the stream. */
  ghost predicate BatchWaits(s: State, p: Sched) {
    && (forall i, j :: 0 <= i < j < |ToAppend(p)| ==> ToAppend(p)[i] != ToAppend(p)[j])
    && (forall i :: 0 <= i < |ToAppend(p)| ==> ToAppend(p)[i] in s.st.retry && 0 <= s.st.retry[ToAppend(p)[i]])
    && (p.Removing? ==> p.batch != [] && p.batch[0] in s.st.stream.log && p.batch[0] !in ToAppend(p))
    && (p.Adding? ==> p.batch != [])
  }

  ghost predicate Waits(s: State) {
    && (forall j, k :: j in s.scheds && k in s.scheds ==> j == k)
    && forall k :: k in s.scheds ==> BatchWaits(s, s.scheds[k])
  }

  /** The step of the settled stage that shows, if one does. */
  function Shown(s: State, l: Label): Option<Label>
    requires Enabled(s, l)
  {
    if l.Fetch? then None
    else if !l.Move? then Some(l)
    else if s.scheds[l.k].Adding? && l.o.Ok() && s.scheds[l.k].batch[0] in s.st.retry then
      Some(MoveAtomic(s.scheds[l.k].batch[0], s.st.retry[s.scheds[l.k].batch[0]]))
    else None
  }

  lemma NoHeads(s: State)
    requires forall k :: k in s.scheds ==> !s.scheds[k].Removing?
    ensures Heads(s) == {} && s.st.retry - Heads(s) == s.st.retry
  {
  }

  lemma OnlyHead(s: State, k: nat)
    requires Waits(s) && k in s.scheds
    ensures Heads(s) == if s.scheds[k].Removing? then {s.scheds[k].batch[0]} else {}
  {
    assert BatchWaits(s, s.scheds[k]);
    if s.scheds[k].Removing? {
      assert s.scheds[k].batch[0] in Heads(s);
    }
  }

  /** A worker about to schedule a retry does not schedule what a scheduler has in hand: its
      job lives with the worker, and below what was delivered of it. */
  lemma RetryIsNew(c: Config, s: State, w: nat)
    requires UniqueCopy.Inv(c, Settled(s)) && Waits(s)
    requires w in s.workers && s.workers[w].At? && s.workers[w].phase.RetryAdd?
    ensures Bump(s.workers[w].job) !in Settled(s).st.retry && Bump(s.workers[w].job) !in Heads(s)
  {
    var copy := Bump(s.workers[w].job);
    NotParked(Settled(s), w, copy);
    if copy in Heads(s) {
      InLog(s, copy);
      var i :| 0 <= i < |s.st.stream.log| && s.st.stream.log[i] == copy;
      NotInLog(Settled(s), w, copy, i);
    }
  }

  lemma NotParked(a: State, w: nat, copy: Job)
    requires OnePlace(a) && w in a.workers && a.workers[w].At? && a.workers[w].phase.RetryAdd?
    requires copy == Bump(a.workers[w].job)
    ensures copy !in a.st.retry
  {
    assert Live(a, Held(w)) && Ident(copy) == Ident(JobAt(a, Held(w)));
    if copy in a.st.retry {
      assert Live(a, Parked(copy));
    }
  }

  lemma InLog(s: State, copy: Job)
    requires Waits(s) && copy in Heads(s)
    ensures copy in s.st.stream.log
  {
    var k :| k in s.scheds && s.scheds[k].Removing? && s.scheds[k].batch != [] && s.scheds[k].batch[0] == copy;
    assert BatchWaits(s, s.scheds[k]);
  }

  lemma NotInLog(a: State, w: nat, copy: Job, i: nat)
    requires Shape(a) && OnePlace(a) && AboveDelivered(a)
    requires w in a.workers && a.workers[w].At? && a.workers[w].phase.RetryAdd?
    requires copy == Bump(a.workers[w].job) && i < |a.st.stream.log|
    ensures a.st.stream.log[i] != copy
  {
    assert HoldsMessage(a, a.workers[w]);
    assert Live(a, Held(w));
    assert DeliveredOf(a, i, JobAt(a, Held(w))) ==> Above(a, Held(w), i);
    assert i >= a.st.stream.cursor ==> Live(a, Unread(i));
  }

  lemma EffectWithout(c: Config, st: Store, heads: set<Job>, phase: Phase, id: nat, job: Job, runAt: int)
    requires phase.RetryAdd? ==> Bump(job) !in heads
    ensures Effect(c, st.(retry := st.retry - heads), phase, id, job, runAt)
         == var t := Effect(c, st, phase, id, job, runAt); t.(retry := t.retry - heads)
  {
    if phase.RetryAdd? {
      var t := Effect(c, st, phase, id, job, runAt);
      assert Effect(c, st.(retry := st.retry - heads), phase, id, job, runAt).retry == t.retry - heads;
    }
  }

  /** What a worker's call does to the retry set, it does without the heads too. */
  lemma StepWithout(c: Config, st: Store, heads: set<Job>, pc: PC, o: Outcome, clock: int, draw: nat)
    requires pc.At? && (pc.phase.RetryAdd? ==> Bump(pc.job) !in heads)
    ensures
      var (t, next) := Step(c, st, pc, o, clock, draw);
      Step(c, st.(retry := st.retry - heads), pc, o, clock, draw) == (t.(retry := t.retry - heads), next)
  {
    var delay := if pc.phase.RetryAdd? then Backoff.CalculateBackoffDelay(pc.job.retryCounts + 1, draw) else Backoff.Wait(0);
    if delay.Wait? {
      EffectWithout(c, st, heads, pc.phase, pc.id, pc.job, Backoff.RunAt(clock, delay.ns));
    }
  }

  lemma WorkSettles(c: Config, s: State, l: Label)
    requires Enabled(s, l) && l.Work?
    requires s.workers[l.w].phase.RetryAdd? ==> Bump(s.workers[l.w].job) !in Heads(s)
    ensures Enabled(Settled(s), l) && Settled(Next(c, s, l)) == Next(c, Settled(s), l)
  {
    var t := Next(c, s, l);
    StepWithout(c, s.st, Heads(s), s.workers[l.w], l.o, l.clock, l.draw);
    assert t.scheds == s.scheds;
    SameHeads(s, t);
  }

  lemma SameHeads(s: State, t: State)
    requires forall k :: k in s.scheds && s.scheds[k].Removing? ==> k in t.scheds && t.scheds[k] == s.scheds[k]
    requires forall k :: k in t.scheds && t.scheds[k].Removing? ==> k in s.scheds && s.scheds[k] == t.scheds[k]
    ensures Heads(s) == Heads(t)
  {
    forall job | job in Heads(s)
      ensures job in Heads(t)
    {
      var k :| k in s.scheds && s.scheds[k].Removing? && s.scheds[k].batch != [] && s.scheds[k].batch[0] == job;
      assert k in t.scheds;
    }
    forall job | job in Heads(t)
      ensures job in Heads(s)
    {
      var k :| k in t.scheds && t.scheds[k].Removing? && t.scheds[k].batch != [] && t.scheds[k].batch[0] == job;
      assert k in s.scheds;
    }
  }

  lemma WorkWaits(c: Config, s: State, l: Label, k: nat)
    requires Waits(s) && Enabled(s, l) && l.Work? && k in s.scheds
    requires s.workers[l.w].phase.RetryAdd? ==> Bump(s.workers[l.w].job) !in ToAppend(s.scheds[k])
    ensures BatchWaits(Next(c, s, l), s.scheds[k])
  {
    assert BatchWaits(s, s.scheds[k]);
    WorkSummary(c, s, l);
    RetryElsewhere(c, s, l);
  }

  lemma RetryElsewhere(c: Config, s: State, l: Label)
    requires Enabled(s, l) && l.Work?
    ensures forall copy :: copy in s.st.retry && (s.workers[l.w].phase.RetryAdd? ==> copy != Bump(s.workers[l.w].job)) ==>
      copy in Next(c, s, l).st.retry && Next(c, s, l).st.retry[copy] == s.st.retry[copy]
  {
  }

  /** What is still to be moved waits in the settled retry set. */
  lemma PendingSettled(s: State, k: nat)
    requires Waits(s) && k in s.scheds
    ensures forall copy :: copy in ToAppend(s.scheds[k]) ==> copy in Settled(s).st.retry
  {
    OnlyHead(s, k);
    assert BatchWaits(s, s.scheds[k]);
  }

  lemma WorkShows(c: Config, s: State, l: Label)
    requires UniqueCopy.Inv(c, Settled(s)) && Waits(s) && Enabled(s, l) && l.Work?
    ensures Enabled(Settled(s), l) && Settled(Next(c, s, l)) == Next(c, Settled(s), l)
    ensures Waits(Next(c, s, l))
  {
    if s.workers[l.w].phase.RetryAdd? {
      RetryIsNew(c, s, l.w);
    }
    WorkSettles(c, s, l);
    assert Next(c, s, l).scheds == s.scheds;
    forall k | k in s.scheds
      ensures BatchWaits(Next(c, s, l), s.scheds[k])
    {
      PendingSettled(s, k);
      WorkWaits(c, s, l, k);
    }
  }

  lemma FetchShows(c: Config, s: State, l: Label)
    requires Waits(s) && Enabled(s, l) && l.Fetch?
    ensures Settled(Next(c, s, l)) == Settled(s) && Waits(Next(c, s, l))
  {
    var t := Next(c, s, l);
    OnlyHead(s, l.k);
    forall i | 0 <= i < |l.batch|
      ensures l.batch[i] in s.st.retry && 0 <= s.st.retry[l.batch[i]]
    {
      assert Due(s.st.retry, l.now, l.batch[i]);
    }
    assert BatchWaits(t, t.scheds[l.k]);
    OnlyHead(t, l.k);
  }

  lemma AppendShows(c: Config, s: State, l: Label)
    requires Waits(s) && Enabled(s, l) && l.Move? && l.o == Done && s.scheds[l.k].Adding?
    ensures Shown(s, l).Some? && Enabled(Settled(s), Shown(s, l).value)
    ensures Settled(Next(c, s, l)) == Next(c, Settled(s), Shown(s, l).value) && Waits(Next(c, s, l))
  {
    var t := Next(c, s, l);
    var batch := s.scheds[l.k].batch;
    OnlyHead(s, l.k);
    assert BatchWaits(s, s.scheds[l.k]);
    assert ToAppend(s.scheds[l.k])[0] == batch[0];
    assert t.scheds[l.k] == Removing(batch);
    assert batch[0] in t.st.stream.log by {
      assert t.st.stream.log[|s.st.stream.log|] == batch[0];
    }
    assert forall i :: 0 <= i < |batch[1..]| ==> batch[1..][i] == batch[i + 1];
    assert BatchWaits(t, t.scheds[l.k]);
    OnlyHead(t, l.k);
    assert s.st.retry - {} == s.st.retry;
  }

  /** An XADD that fails cleanly ends the call; nothing shows. */
  lemma RefusalShows(c: Config, s: State, l: Label)
    requires Waits(s) && Enabled(s, l) && l.Move? && l.o.Refused? && s.scheds[l.k].Adding?
    ensures Settled(Next(c, s, l)) == Settled(s) && Waits(Next(c, s, l))
  {
    var t := Next(c, s, l);
    OnlyHead(s, l.k);
    assert BatchWaits(t, t.scheds[l.k]);
    OnlyHead(t, l.k);
  }

  lemma RemoveShows(c: Config, s: State, l: Label)
    requires Waits(s) && Enabled(s, l) && l.Move? && l.o.Applied() && s.scheds[l.k].Removing?
    ensures Settled(Next(c, s, l)) == Settled(s) && Waits(Next(c, s, l))
  {
    var t := Next(c, s, l);
    OnlyHead(s, l.k);
    assert BatchWaits(s, s.scheds[l.k]);
    assert BatchWaits(t, t.scheds[l.k]);
    OnlyHead(t, l.k);
    assert t.st.retry - {} == t.st.retry;
  }

  lemma SpawnSettles(c: Config, s: State, l: Label)
    requires Enabled(s, l) && l.SpawnSched?
    ensures Enabled(Settled(s), l) && Settled(Next(c, s, l)) == Next(c, Settled(s), l)
  {
    SameHeads(s, Next(c, s, l));
    assert Settled(Next(c, s, l)).scheds == Next(c, Settled(s), l).scheds;
  }

  /** A scheduler that dies before an append leaves nothing half-done. */
  lemma CrashSettles(c: Config, s: State, l: Label)
    requires Enabled(s, l) && l.CrashSched? && !DiesBetween(s, l)
    ensures Enabled(Settled(s), l) && Settled(Next(c, s, l)) == Next(c, Settled(s), l)
  {
    SameHeads(s, Next(c, s, l));
    assert Settled(Next(c, s, l)).scheds == Next(c, Settled(s), l).scheds;
  }

  /** Steps that touch neither the retry set nor a batch. */
  lemma PlainSettles(c: Config, s: State, l: Label)
    requires Enabled(s, l) && (l.Submit? || l.AddRow? || l.DropRows? || l.Spawn? || l.Crash? || l.Read?)
    ensures Enabled(Settled(s), l) && Settled(Next(c, s, l)) == Next(c, Settled(s), l)
  {
    assert Next(c, s, l).scheds == s.scheds;
    SameHeads(s, Next(c, s, l));
  }

  lemma OtherWaits(c: Config, s: State, l: Label)
    requires Waits(s) && Enabled(s, l) && Calm(c, s, l, 1) && !l.Work? && !l.Fetch? && !l.Move?
    ensures Waits(Next(c, s, l))
  {
    var t := Next(c, s, l);
    assert t.st.retry == s.st.retry && s.st.stream.log <= t.st.stream.log;
    forall k | k in t.scheds
      ensures BatchWaits(t, t.scheds[k])
    {
      assert k in s.scheds ==> BatchWaits(s, s.scheds[k]);
    }
    if l.SpawnSched? {
      assert |s.scheds.Keys| == 0;
      assert s.scheds.Keys == {};
    }
  }

  /** Every step of a stage with one scheduler and none of the three faults is one of the settled
      stage, or shows nothing. */
  lemma StepShows(c: Config, s: State, l: Label)
    requires UniqueCopy.Inv(c, Settled(s)) && Waits(s) && Enabled(s, l) && Calm(c, s, l, 1) && Fresh(s, l)
    ensures Waits(Next(c, s, l))
    ensures
      match Shown(s, l)
      case None => Settled(Next(c, s, l)) == Settled(s)
      case Some(a) =>
        Enabled(Settled(s), a) && Tame(c, Settled(s), a) && Settled(Next(c, s, l)) == Next(c, Settled(s), a)
  {
    if l.Work? {
      WorkShows(c, s, l);
    } else if l.Fetch? {
      FetchShows(c, s, l);
    } else if l.Move? {
      if s.scheds[l.k].Removing? {
        RemoveShows(c, s, l);
      } else if l.o.Refused? {
        RefusalShows(c, s, l);
      } else {
        AppendShows(c, s, l);
      }
    } else {
      if l.SpawnSched? {
        SpawnSettles(c, s, l);
      } else if l.CrashSched? {
        CrashSettles(c, s, l);
      } else {
        PlainSettles(c, s, l);
      }
      OtherWaits(c, s, l);
    }
  }

  // ----- both stages

  ghost function Both(g: P.System): P.System {
    g.(story := Settled(g.story), email := Settled(g.email))
  }

  ghost predicate SettledInv(ps: P.Params, g: P.System) {
    P.UniqueInv(ps, Both(g)) && Waits(g.story) && Waits(g.email)
  }

  /** A notification or a new row shows in the settled e-mail stage just so. */
  lemma SignalShows(c: Config, s: State, l: Label)
    requires Waits(s) && Enabled(s, l) && (l.Submit? || l.AddRow?)
    ensures Enabled(Settled(s), l) && Settled(Next(c, s, l)) == Next(c, Settled(s), l) && Waits(Next(c, s, l))
  {
    var t := Next(c, s, l);
    SameHeads(s, t);
    assert t.st.retry == s.st.retry && s.st.stream.log <= t.st.stream.log;
    forall k | k in t.scheds
      ensures BatchWaits(t, t.scheds[k])
    {
      assert BatchWaits(s, s.scheds[k]);
    }
  }

  lemma StoryShows(ps: P.Params, g: P.System, p: P.Step)
    requires SettledInv(ps, g) && P.CanStep(g, p) && CalmStep(ps, g, p, 1) && p.StoryStep?
    ensures SettledInv(ps, P.After(ps, g, p))
  {
    StepShows(ps.Story(), g.story, p.l);
    var shown := Shown(g.story, p.l);
    var h := P.After(ps, g, p);
    if shown.None? {
      assert P.Signal(g.story, p.l, p.key).None? && Both(h) == Both(g);
    } else {
      var q := P.StoryStep(shown.value, p.key);
      var signal := P.Signal(g.story, p.l, p.key);
      assert P.Signal(Settled(g.story), q.l, q.key) == signal;
      if signal.Some? {
        SignalShows(ps.Email(), g.email, signal.value);
      }
      assert P.CanStep(Both(g), q) && Both(h) == P.After(ps, Both(g), q);
      P.StepKeepsUnique(ps, Both(g), q);
    }
  }

  lemma EmailShows(ps: P.Params, g: P.System, p: P.Step)
    requires SettledInv(ps, g) && P.CanStep(g, p) && CalmStep(ps, g, p, 1) && p.EmailStep?
    ensures SettledInv(ps, P.After(ps, g, p))
  {
    StepShows(ps.Email(), g.email, p.l);
    var shown := Shown(g.email, p.l);
    var h := P.After(ps, g, p);
    if shown.None? {
      assert Both(h) == Both(g);
    } else {
      var q := P.EmailStep(shown.value);
      assert P.CanStep(Both(g), q) && Both(h) == P.After(ps, Both(g), q);
      P.StepKeepsUnique(ps, Both(g), q);
    }
  }

  lemma {:induction false} RunSettles(ps: P.Params, g: P.System, steps: seq<P.Step>)
    requires SettledInv(ps, g) && P.Possible(ps, g, steps) && CalmSteps(ps, g, steps, 1)
    ensures SettledInv(ps, P.End(ps, g, steps))
    decreases |steps|
  {
    if steps != [] {
      if steps[0].StoryStep? {
        StoryShows(ps, g, steps[0]);
      } else {
        EmailShows(ps, g, steps[0]);
      }
      RunSettles(ps, P.After(ps, g, steps[0]), steps[1..]);
    }
  }

  lemma Start(ps: P.Params)
    ensures SettledInv(ps, P.START)
  {
    NoHeads(INIT);
    assert Settled(INIT) == INIT;
    assert Both(P.START) == P.START;
  }

  /** With one scheduler per stage and none of the three faults, each job is at one place of its
      stage at most: waiting in the stream, with a worker, or in the retry set without having
      been appended yet. Each copy is delivered once, and each stage dead-letters a job once,
      also where the dead-letter branch falls through. */
  lemma OneLiveCopy(ps: P.Params, steps: seq<P.Step>)
    requires P.Possible(ps, P.START, steps) && CalmSteps(ps, P.START, steps, 1)
    ensures
      var g := P.End(ps, P.START, steps);
      && OnePlace(Settled(g.story)) && OnePlace(Settled(g.email))
      && DeliveredOnce(g.story) && DeliveredOnce(g.email)
      && (forall i, j :: 0 <= i < j < |g.story.st.dlq| ==> Ident(g.story.st.dlq[i]) != Ident(g.story.st.dlq[j]))
      && (forall i, j :: 0 <= i < j < |g.email.st.dlq| ==> Ident(g.email.st.dlq[i]) != Ident(g.email.st.dlq[j]))
  {
    Start(ps);
    RunSettles(ps, P.START, steps);
    OneCopyInBoth(ps, P.End(ps, P.START, steps));
  }

  lemma OneCopyInBoth(ps: P.Params, g: P.System)
    requires P.UniqueInv(ps, Both(g))
    ensures OnePlace(Settled(g.story)) && OnePlace(Settled(g.email))
    ensures DeliveredOnce(g.story) && DeliveredOnce(g.email)
    ensures forall i, j :: 0 <= i < j < |g.story.st.dlq| ==> Ident(g.story.st.dlq[i]) != Ident(g.story.st.dlq[j])
    ensures forall i, j :: 0 <= i < j < |g.email.st.dlq| ==> Ident(g.email.st.dlq[i]) != Ident(g.email.st.dlq[j])
  {
    P.DeadLetterOnce(ps.Story(), Settled(g.story));
    P.DeadLetterOnce(ps.Email(), Settled(g.email));
  }
}
