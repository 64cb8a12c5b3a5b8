/**
  How far re-enqueueing in two calls multiplies a job. With n schedulers at work, every entry
  of the retry set is appended at most n times, so a job has at most n^k copies k levels
  above its submission: one if a single scheduler is at work. Workers may fail, lose replies
  and die as they like. Of the schedulers three things are asked, each of them necessary (see
  SchedulerFaults): no XADD takes effect without its reply arriving, every ZREM takes effect,
  and nobody dies between the two.
*/
module Multiplicity {
  import opened Jobs
  import opened Sets
  import opened Worker
  import opened Stage
  import opened Records
  import UniqueCopy

  /** The messages delivered so far that were copies of x. */
  ghost function Deliveries(s: State, x: Job): set<nat> {
    set i: nat | i < s.st.stream.cursor && i < |s.st.stream.log| && Ident(s.st.stream.log[i]) == Ident(x)
  }

  /** The messages for which an execution of x ended. */
  ghost function Executions(s: State, x: Job): set<nat> {
    set id | id in s.h.failed + s.h.done && id < |s.st.stream.log| && Ident(s.st.stream.log[id]) == Ident(x)
  }

  lemma ExecutionsAreDeliveries(s: State, x: Job)
    requires Shape(s)
    ensures Executions(s, x) <= Deliveries(s, x)
  {
  }

  // ----- what may go wrong with schedulers

  /** Which of the three events a run may contain. */
  datatype Faults = Faults(lostAppend: bool, failedRemoval: bool, crashBetween: bool)

  const NONE := Faults(false, false, false)

  /** An XADD takes effect, but the scheduler sees an error and leaves the entry in place. */
  predicate LosesAppend(s: State, l: Label) {
    l.Move? && l.k in s.scheds && s.scheds[l.k].Adding? && l.o.ReplyLost?
  }

  /** A ZREM takes no effect; its result is not looked at. */
  predicate FailsRemoval(s: State, l: Label) {
    l.Move? && l.k in s.scheds && s.scheds[l.k].Removing? && l.o.Refused?
  }

  /** A scheduler dies between the two calls for an entry. */
  predicate DiesBetween(s: State, l: Label) {
    l.CrashSched? && l.k in s.scheds && s.scheds[l.k].Removing?
  }

  /** A step with at most n schedulers, who make the code's two calls, with these faults only.
      Calls that fail cleanly, lost replies of ZREM and deaths before an append are none. */
  ghost predicate Within(c: Config, s: State, l: Label, n: nat, f: Faults) {
    && SubmitsWithin(c, l)
    && !l.MoveAtomic?
    && (l.SpawnSched? ==> |s.scheds| < n)
    && (LosesAppend(s, l) ==> f.lostAppend)
    && (FailsRemoval(s, l) ==> f.failedRemoval)
    && (DiesBetween(s, l) ==> f.crashBetween)
  }

  ghost predicate Calm(c: Config, s: State, l: Label, n: nat) {
    Within(c, s, l, n, NONE)
  }

  /** A submission is of a new job. */
  ghost predicate Fresh(s: State, l: Label) {
    l.Submit? ==> forall job :: job in s.h.added ==> Ident(job) != Ident(l.job)
  }

  ghost predicate WithinRun(c: Config, s: State, ls: seq<Label>, n: nat, f: Faults)
    requires Legal(c, s, ls)
    decreases |ls|
  {
    ls == [] || (Within(c, s, ls[0], n, f) && Fresh(s, ls[0]) && WithinRun(c, Next(c, s, ls[0]), ls[1..], n, f))
  }

  // ----- where copies of one job at one level are, and may still come from

  ghost function Occurrences(s: State, copy: Job): set<nat> {
    set i: nat | i < |s.st.stream.log| && s.st.stream.log[i] == copy
  }

  /** What a scheduler has still to append. */
  function ToAppend(p: Sched): seq<Job> {
    match p
    case Resting => []
    case Adding(batch) => batch
    case Removing(batch) => if batch == [] then [] else batch[1..]
  }

  ghost function Appending(s: State, copy: Job): set<nat> {
    set k | k in s.scheds && copy in ToAppend(s.scheds[k])
  }

  /** The schedulers that appended the copy and are about to remove it. */
  ghost function Clearing(s: State, copy: Job): set<nat> {
    set k | k in s.scheds && s.scheds[k].Removing? && s.scheds[k].batch != [] && s.scheds[k].batch[0] == copy
  }

  ghost predicate Owned(s: State, id: nat) {
    exists w :: w in s.workers && UniqueCopy.Owns(s.workers[w]) && s.workers[w].id == id
  }

  /** The failed messages one level below whose handling can no longer schedule the copy. */
  ghost function Spent(s: State, copy: Job): set<nat> {
    set id: nat | id in s.h.failed && id < |s.st.stream.log| && Bump(s.st.stream.log[id]) == copy && !Owned(s, id)
  }

  /** How often the copy was submitted. */
  function Submitted(s: State, copy: Job): nat {
    multiset(s.h.added)[copy]
  }

  /** Copies appended, about to be appended, and fetches the entry still allows. */
  ghost function Potential(n: nat, s: State, copy: Job): int {
    |Occurrences(s, copy)| + |Appending(s, copy)|
    + if copy in s.st.retry then n - |Appending(s, copy)| - |Clearing(s, copy)| else 0
  }

  ghost predicate Accounted(n: nat, s: State, copy: Job) {
    Potential(n, s, copy) <= n * |Spent(s, copy)| + Submitted(s, copy)
  }

  ghost predicate BatchDistinct(p: Sched) {
    !p.Resting? ==> p.batch != [] && forall i, j :: 0 <= i < j < |p.batch| ==> p.batch[i] != p.batch[j]
  }

  ghost predicate SchedsOk(n: nat, s: State) {
    |s.scheds| <= n && forall k :: k in s.scheds ==> BatchDistinct(s.scheds[k])
  }

  ghost predicate Inv(n: nat, c: Config, s: State) {
    && Records.Inv(c, s) && SchedsOk(n, s)
    && forall copy :: Accounted(n, s, copy)
  }

  /** Nobody both appends and clears one copy. */
  lemma Apart(n: nat, s: State, copy: Job)
    requires SchedsOk(n, s)
    ensures Appending(s, copy) !! Clearing(s, copy)
    ensures |Appending(s, copy)| + |Clearing(s, copy)| <= n
  {
    forall k | k in Appending(s, copy)
      ensures k !in Clearing(s, copy)
    {
      assert BatchDistinct(s.scheds[k]);
    }
    assert |Appending(s, copy) + Clearing(s, copy)| == |Appending(s, copy)| + |Clearing(s, copy)|;
    SubsetSize(Appending(s, copy) + Clearing(s, copy), s.scheds.Keys);
  }

  /** What is spent stays spent: a worker only gets messages nobody had before. */
  lemma SpentStays(c: Config, s: State, l: Label, copy: Job)
    requires Shape(s) && Enabled(s, l)
    ensures Spent(s, copy) <= Spent(Next(c, s, l), copy)
    ensures |Spent(s, copy)| <= |Spent(Next(c, s, l), copy)|
  {
    var t := Next(c, s, l);
    LogGrows(c, s, l);
    forall id | id in Spent(s, copy)
      ensures id in Spent(t, copy)
    {
      StaysUnowned(c, s, l, id);
    }
    SubsetSize(Spent(s, copy), Spent(t, copy));
  }

  lemma LogGrows(c: Config, s: State, l: Label)
    requires Shape(s) && Enabled(s, l)
    ensures s.st.stream.log <= Next(c, s, l).st.stream.log && s.h.failed <= Next(c, s, l).h.failed
  {
    if l.Work? {
      WorkSummary(c, s, l);
    } else if !l.Read? {
      QuietSummary(c, s, l);
    }
  }

  lemma StaysUnowned(c: Config, s: State, l: Label, id: nat)
    requires Shape(s) && Enabled(s, l) && id < s.st.stream.cursor && !Owned(s, id)
    ensures !Owned(Next(c, s, l), id)
  {
    var t := Next(c, s, l);
    if l.Read? {
      NextMessage(s.st.stream);
    } else if l.Work? {
      WorkSummary(c, s, l);
    } else {
      QuietSummary(c, s, l);
    }
    forall w | w in t.workers && UniqueCopy.Owns(t.workers[w])
      ensures t.workers[w].id != id
    {
      if w in s.workers && UniqueCopy.Owns(s.workers[w]) {
        assert s.workers[w].id != id;
      }
    }
  }

  // ----- what each step does to the account

  /** Scheduling the copy spends the message it came from. */
  lemma ScheduleSpends(c: Config, s: State, l: Label)
    requires Shape(s) && Enabled(s, l) && l.Work? && s.workers[l.w].phase.RetryAdd?
    ensures
      var copy := Bump(s.workers[l.w].job);
      |Spent(Next(c, s, l), copy)| >= |Spent(s, copy)| + 1
  {
    var t := Next(c, s, l);
    var pc := s.workers[l.w];
    var copy := Bump(pc.job);
    WorkSummary(c, s, l);
    assert HoldsMessage(s, pc);
    SpentStays(c, s, l, copy);
    assert UniqueCopy.Owns(pc);
    assert Owned(s, pc.id);
    assert !Owned(t, pc.id) by {
      forall w | w in t.workers && UniqueCopy.Owns(t.workers[w])
        ensures t.workers[w].id != pc.id
      {
        assert w != l.w;
      }
    }
    SubsetSize(Spent(s, copy) + {pc.id}, Spent(t, copy));
  }

  lemma WorkAccounted(n: nat, c: Config, s: State, l: Label, copy: Job)
    requires Records.Inv(c, s) && SchedsOk(n, s) && Accounted(n, s, copy) && Enabled(s, l) && l.Work?
    ensures Accounted(n, Next(c, s, l), copy)
  {
    var t := Next(c, s, l);
    WorkSummary(c, s, l);
    SpentStays(c, s, l, copy);
    Apart(n, s, copy);
    assert Occurrences(t, copy) == Occurrences(s, copy);
    assert Appending(t, copy) == Appending(s, copy) && Clearing(t, copy) == Clearing(s, copy);
    Times(n, |Spent(s, copy)|, |Spent(t, copy)|);
    if copy in t.st.retry && copy !in s.st.retry {
      ScheduleSpends(c, s, l);
    }
  }

  lemma Times(n: nat, a: nat, b: nat)
    requires a <= b
    ensures n * a <= n * b && (a < b ==> n * a + n <= n * b)
  {
    assert n * b == n * a + n * (b - a);
    if a < b {
      assert n * (b - a) == n + n * (b - a - 1);
    }
  }

  /** Steps that leave the log, the retry set and the schedulers alone. */
  lemma SameAccount(n: nat, c: Config, s: State, l: Label, copy: Job)
    requires Records.Inv(c, s) && Accounted(n, s, copy) && Enabled(s, l)
    requires l.AddRow? || l.DropRows? || l.Spawn? || l.Crash? || l.Read?
    ensures Accounted(n, Next(c, s, l), copy)
  {
    var t := Next(c, s, l);
    SpentStays(c, s, l, copy);
    assert t.st.stream.log == s.st.stream.log && t.scheds == s.scheds && t.st.retry == s.st.retry && t.h == s.h;
    assert Occurrences(t, copy) == Occurrences(s, copy);
    assert Appending(t, copy) == Appending(s, copy) && Clearing(t, copy) == Clearing(s, copy);
    Times(n, |Spent(s, copy)|, |Spent(t, copy)|);
  }

  lemma SpawnAccounted(n: nat, c: Config, s: State, l: Label, copy: Job)
    requires Records.Inv(c, s) && Accounted(n, s, copy) && Enabled(s, l) && l.SpawnSched?
    ensures Accounted(n, Next(c, s, l), copy)
  {
    var t := Next(c, s, l);
    SpentStays(c, s, l, copy);
    assert Occurrences(t, copy) == Occurrences(s, copy);
    assert Appending(t, copy) == Appending(s, copy) && Clearing(t, copy) == Clearing(s, copy);
    Times(n, |Spent(s, copy)|, |Spent(t, copy)|);
  }

  /** A scheduler that appends no more, by death or by an XADD that fails cleanly, gives its
      fetches back to the entries that are still there. */
  lemma LetGoAccounted(n: nat, c: Config, s: State, l: Label, copy: Job)
    requires Records.Inv(c, s) && Accounted(n, s, copy) && Enabled(s, l) && !DiesBetween(s, l)
    requires l.CrashSched? || (l.Move? && l.o.Refused? && s.scheds[l.k].Adding?)
    ensures Accounted(n, Next(c, s, l), copy)
  {
    var t := Next(c, s, l);
    SpentStays(c, s, l, copy);
    assert Occurrences(t, copy) == Occurrences(s, copy);
    assert Clearing(t, copy) == Clearing(s, copy);
    SubsetSize(Appending(t, copy), Appending(s, copy));
    Times(n, |Spent(s, copy)|, |Spent(t, copy)|);
  }

  lemma OneMore(s: State, t: State, copy: Job, job: Job)
    requires t.st.stream.log == s.st.stream.log + [job]
    ensures |Occurrences(t, copy)| == |Occurrences(s, copy)| + if job == copy then 1 else 0
  {
    var n := |s.st.stream.log|;
    if job == copy {
      assert Occurrences(t, copy) == Occurrences(s, copy) + {n};
    } else {
      assert Occurrences(t, copy) == Occurrences(s, copy);
    }
  }

  lemma SubmitAccounted(n: nat, c: Config, s: State, l: Label, copy: Job)
    requires Records.Inv(c, s) && Accounted(n, s, copy) && Enabled(s, l) && l.Submit?
    ensures Accounted(n, Next(c, s, l), copy)
  {
    var t := Next(c, s, l);
    SpentStays(c, s, l, copy);
    OneMore(s, t, copy, l.job);
    assert Appending(t, copy) == Appending(s, copy) && Clearing(t, copy) == Clearing(s, copy);
    Times(n, |Spent(s, copy)|, |Spent(t, copy)|);
    assert multiset(t.h.added) == multiset(s.h.added) + multiset{l.job};
  }

  lemma FetchSets(s: State, l: Label, t: State, copy: Job)
    requires Enabled(s, l) && l.Fetch? && t == s.(scheds := s.scheds[l.k := Adding(l.batch)])
    ensures Occurrences(t, copy) == Occurrences(s, copy) && Clearing(t, copy) == Clearing(s, copy)
    ensures Appending(t, copy) == Appending(s, copy) + if copy in l.batch then {l.k} else {}
    ensures l.k !in Appending(s, copy) && (copy in l.batch ==> copy in s.st.retry)
  {
    if copy in l.batch {
      var i :| 0 <= i < |l.batch| && l.batch[i] == copy;
      assert Due(s.st.retry, l.now, l.batch[i]);
    }
  }

  /** Fetching an entry uses up one of its fetches. */
  lemma FetchAccounted(n: nat, c: Config, s: State, l: Label, copy: Job)
    requires Records.Inv(c, s) && Accounted(n, s, copy) && Enabled(s, l) && l.Fetch?
    ensures Accounted(n, Next(c, s, l), copy)
  {
    var t := Next(c, s, l);
    SpentStays(c, s, l, copy);
    Times(n, |Spent(s, copy)|, |Spent(t, copy)|);
    FetchSets(s, l, t, copy);
  }

  lemma AppendSets(n: nat, c: Config, s: State, l: Label, copy: Job)
    requires SchedsOk(n, s) && Enabled(s, l) && l.Move? && l.o == Done && s.scheds[l.k].Adding?
    ensures
      var t, hit := Next(c, s, l), if copy == s.scheds[l.k].batch[0] then 1 else 0;
      && |Appending(t, copy)| == |Appending(s, copy)| - hit
      && |Clearing(t, copy)| == |Clearing(s, copy)| + hit
  {
    var t := Next(c, s, l);
    var batch := s.scheds[l.k].batch;
    assert BatchDistinct(s.scheds[l.k]);
    assert t.scheds == s.scheds[l.k := Removing(batch)];
    SameElsewhere(Appending(s, copy), Appending(t, copy), l.k);
    SameElsewhere(Clearing(s, copy), Clearing(t, copy), l.k);
    assert copy in batch <==> copy == batch[0] || copy in batch[1..];
    assert copy == batch[0] ==> copy !in batch[1..];
  }

  /** An append: one copy more, one append less to come, one removal pending. */
  lemma AppendAccounted(n: nat, c: Config, s: State, l: Label, copy: Job)
    requires Records.Inv(c, s) && SchedsOk(n, s) && Accounted(n, s, copy) && Enabled(s, l)
    requires l.Move? && l.o == Done && s.scheds[l.k].Adding?
    ensures Accounted(n, Next(c, s, l), copy)
  {
    var t := Next(c, s, l);
    SpentStays(c, s, l, copy);
    Times(n, |Spent(s, copy)|, |Spent(t, copy)|);
    OneMore(s, t, copy, s.scheds[l.k].batch[0]);
    AppendSets(n, c, s, l, copy);
  }

  /** A removal ends the entry's fetches. */
  lemma RemoveAccounted(n: nat, c: Config, s: State, l: Label, copy: Job)
    requires Records.Inv(c, s) && SchedsOk(n, s) && Accounted(n, s, copy) && Enabled(s, l)
    requires l.Move? && l.o.Applied() && s.scheds[l.k].Removing?
    ensures Accounted(n, Next(c, s, l), copy)
  {
    var t := Next(c, s, l);
    var batch := s.scheds[l.k].batch;
    SpentStays(c, s, l, copy);
    Times(n, |Spent(s, copy)|, |Spent(t, copy)|);
    Apart(n, s, copy);
    assert Occurrences(t, copy) == Occurrences(s, copy);
    assert Appending(t, copy) == Appending(s, copy);
    if copy != batch[0] {
      assert Clearing(t, copy) == Clearing(s, copy);
    }
  }

  lemma AccountedStep(n: nat, c: Config, s: State, l: Label, copy: Job)
    requires Inv(n, c, s) && Enabled(s, l) && Calm(c, s, l, n)
    ensures Accounted(n, Next(c, s, l), copy)
  {
    assert Accounted(n, s, copy);
    match l
    case Submit(_) => SubmitAccounted(n, c, s, l, copy);
    case Work(_, _, _, _) => WorkAccounted(n, c, s, l, copy);
    case Fetch(_, _, _) => FetchAccounted(n, c, s, l, copy);
    case Move(k, o) =>
      if s.scheds[k].Removing? {
        RemoveAccounted(n, c, s, l, copy);
      } else if o.Refused? {
        LetGoAccounted(n, c, s, l, copy);
      } else {
        AppendAccounted(n, c, s, l, copy);
      }
    case SpawnSched(_) => SpawnAccounted(n, c, s, l, copy);
    case CrashSched(_) => LetGoAccounted(n, c, s, l, copy);
    case _ => SameAccount(n, c, s, l, copy);
  }

  lemma SchedsStep(n: nat, c: Config, s: State, l: Label)
    requires SchedsOk(n, s) && Enabled(s, l) && Calm(c, s, l, n)
    ensures SchedsOk(n, Next(c, s, l))
  {
    var t := Next(c, s, l);
    SchedKeys(c, s, l);
    if l.SpawnSched? {
      assert |t.scheds.Keys| == |s.scheds.Keys| + 1;
    } else {
      SubsetSize(t.scheds.Keys, s.scheds.Keys);
    }
    forall k | k in t.scheds
      ensures BatchDistinct(t.scheds[k])
    {
      BatchStays(c, s, l, k);
    }
  }

  lemma SchedKeys(c: Config, s: State, l: Label)
    requires Enabled(s, l)
    ensures if l.SpawnSched? then Next(c, s, l).scheds.Keys == s.scheds.Keys + {l.k} && l.k !in s.scheds.Keys
            else Next(c, s, l).scheds.Keys <= s.scheds.Keys
  {
  }

  lemma BatchStays(c: Config, s: State, l: Label, k: nat)
    requires (forall j :: j in s.scheds ==> BatchDistinct(s.scheds[j])) && Enabled(s, l) && k in Next(c, s, l).scheds
    ensures BatchDistinct(Next(c, s, l).scheds[k])
  {
    assert k in s.scheds ==> BatchDistinct(s.scheds[k]);
  }

  lemma StepKeepsInv(n: nat, c: Config, s: State, l: Label)
    requires Inv(n, c, s) && Enabled(s, l) && Calm(c, s, l, n)
    ensures Inv(n, c, Next(c, s, l))
  {
    Records.StepKeepsInv(c, s, l);
    SchedsStep(n, c, s, l);
    forall copy
      ensures Accounted(n, Next(c, s, l), copy)
    {
      AccountedStep(n, c, s, l, copy);
    }
  }

  lemma AddedOnceStep(c: Config, s: State, l: Label)
    requires UniqueCopy.AddedOnce(s) && Enabled(s, l) && Fresh(s, l)
    ensures UniqueCopy.AddedOnce(Next(c, s, l))
  {
    if l.Work? {
      WorkSummary(c, s, l);
    } else if !l.Read? && !l.Submit? {
      QuietSummary(c, s, l);
    }
  }

  lemma {:induction false} RunKeepsInv(n: nat, c: Config, s: State, ls: seq<Label>)
    requires Inv(n, c, s) && UniqueCopy.AddedOnce(s) && Legal(c, s, ls) && WithinRun(c, s, ls, n, NONE)
    ensures Inv(n, c, Run(c, s, ls)) && UniqueCopy.AddedOnce(Run(c, s, ls))
    decreases |ls|
  {
    if ls != [] {
      StepKeepsInv(n, c, s, ls[0]);
      AddedOnceStep(c, s, ls[0]);
      RunKeepsInv(n, c, Next(c, s, ls[0]), ls[1..]);
    }
  }

  lemma Begins(n: nat, c: Config)
    ensures Inv(n, c, INIT) && UniqueCopy.AddedOnce(INIT)
  {
    forall copy
      ensures Accounted(n, INIT, copy)
    {
      assert Occurrences(INIT, copy) == {} && Appending(INIT, copy) == {};
    }
  }

  lemma Reachable(n: nat, c: Config, ls: seq<Label>)
    requires Legal(c, INIT, ls) && WithinRun(c, INIT, ls, n, NONE)
    ensures Inv(n, c, Run(c, INIT, ls)) && UniqueCopy.AddedOnce(Run(c, INIT, ls))
  {
    Begins(n, c);
    RunKeepsInv(n, c, INIT, ls);
  }

  // ----- n^k copies at most

  function Pow(n: nat, k: nat): nat {
    if k == 0 then 1 else n * Pow(n, k - 1)
  }

  /** 1 + n + ... + n^k */
  function Geo(n: nat, k: nat): nat {
    if k == 0 then 1 else Geo(n, k - 1) + Pow(n, k)
  }

  /** The failed executions of exactly this copy. */
  ghost function Failures(s: State, copy: Job): set<nat> {
    set id | id in s.h.failed && id < |s.st.stream.log| && s.st.stream.log[id] == copy
  }

  ghost function CopiesAt(s: State, x: Job, level: int): nat {
    |Occurrences(s, x.(retryCounts := level))|
  }

  ghost function FailuresAt(s: State, x: Job, level: int): nat {
    |Failures(s, x.(retryCounts := level))|
  }

  /** The copies at a level were submitted there, or come from failures one level below, at
      most n from each. */
  ghost predicate LevelOk(n: nat, s: State, x: Job, level: nat) {
    && CopiesAt(s, x, level) <= (if level == 0 then 0 else n * FailuresAt(s, x, level - 1)) + Submitted(s, x.(retryCounts := level))
    && FailuresAt(s, x, level) <= CopiesAt(s, x, level)
  }

  /** Spent messages are failures one level below; below level 0 there are none. */
  lemma SpentBelow(c: Config, s: State, copy: Job)
    requires Shape(s) && Levels(c, s)
    ensures |Spent(s, copy)| <= |Failures(s, copy.(retryCounts := copy.retryCounts - 1))|
    ensures copy.retryCounts <= 0 ==> Spent(s, copy) == {}
  {
    var below := copy.(retryCounts := copy.retryCounts - 1);
    forall id | id in Spent(s, copy)
      ensures id in Failures(s, below) && copy.retryCounts > 0
    {
      assert Bump(s.st.stream.log[id]) == copy;
      assert s.st.stream.log[id] in s.h.added || ScheduledOk(c, s, s.st.stream.log[id]);
    }
    SubsetSize(Spent(s, copy), Failures(s, below));
  }

  /** Copies were submitted, or come from spent messages, n from each. */
  lemma CopiesFromSpent(n: nat, s: State, copy: Job)
    requires SchedsOk(n, s) && Accounted(n, s, copy)
    ensures |Occurrences(s, copy)| <= n * |Spent(s, copy)| + Submitted(s, copy)
  {
    Apart(n, s, copy);
  }

  lemma LevelSources(n: nat, s: State, x: Job, level: nat, spent: nat)
    requires CopiesAt(s, x, level) <= n * spent + Submitted(s, x.(retryCounts := level))
    requires spent <= if level == 0 then 0 else FailuresAt(s, x, level - 1)
    ensures LevelOk(n, s, x, level)
  {
    var copy := x.(retryCounts := level);
    SubsetSize(Failures(s, copy), Occurrences(s, copy));
    if level > 0 {
      Times(n, spent, FailuresAt(s, x, level - 1));
    }
  }

  lemma SameSubmission(s: State, a: Job, b: Job)
    requires UniqueCopy.AddedOnce(s) && a in s.h.added && b in s.h.added && Ident(a) == Ident(b)
    ensures a == b
  {
    var i :| 0 <= i < |s.h.added| && s.h.added[i] == a;
    var j :| 0 <= j < |s.h.added| && s.h.added[j] == b;
    assert i < j || j < i || i == j;
  }

  lemma {:induction false} CountOnce(jobs: seq<Job>, x: Job)
    requires forall i, j :: 0 <= i < j < |jobs| ==> Ident(jobs[i]) != Ident(jobs[j])
    ensures multiset(jobs)[x] <= 1
  {
    if jobs != [] {
      var last := |jobs| - 1;
      CountOnce(jobs[..last], x);
      assert jobs == jobs[..last] + [jobs[last]];
      assert jobs[last] !in jobs[..last];
    }
  }

  /** A job that was submitted once was submitted at its own level. */
  lemma SubmittedOnce(s: State, x: Job, level: int)
    requires UniqueCopy.AddedOnce(s) && x in s.h.added
    ensures Submitted(s, x.(retryCounts := level)) <= if level == x.retryCounts then 1 else 0
  {
    var copy := x.(retryCounts := level);
    CountOnce(s.h.added, copy);
    if copy in s.h.added {
      SameSubmission(s, copy, x);
    }
  }

  function Allowed(n: nat, base: int, level: int): nat {
    if level < base then 0 else Pow(n, level - base)
  }

  lemma {:induction false} GrowthBound(n: nat, s: State, x: Job, level: nat)
    requires UniqueCopy.AddedOnce(s) && x in s.h.added && 0 <= x.retryCounts
    requires forall k: nat :: LevelOk(n, s, x, k)
    ensures CopiesAt(s, x, level) <= Allowed(n, x.retryCounts, level)
    decreases level
  {
    assert LevelOk(n, s, x, level);
    SubmittedOnce(s, x, level);
    if level > 0 {
      GrowthBound(n, s, x, level - 1);
      assert LevelOk(n, s, x, level - 1);
      Times(n, FailuresAt(s, x, level - 1), Allowed(n, x.retryCounts, level - 1));
    }
  }

  /** At most n^k copies k levels above the submission, and none below it. */
  lemma CopiesAtLevel(n: nat, c: Config, s: State, x: Job, level: nat)
    requires Inv(n, c, s) && UniqueCopy.AddedOnce(s) && x in s.h.added
    ensures 0 <= x.retryCounts && CopiesAt(s, x, level) <= Allowed(n, x.retryCounts, level)
  {
    EveryLevelOk(n, c, s, x);
    GrowthBound(n, s, x, level);
  }

  /** The two facts about what a level comes from. */
  lemma SpentAt(n: nat, c: Config, s: State, x: Job, level: nat) returns (spent: nat)
    requires Shape(s) && Levels(c, s) && SchedsOk(n, s) && Accounted(n, s, x.(retryCounts := level))
    ensures CopiesAt(s, x, level) <= n * spent + Submitted(s, x.(retryCounts := level))
    ensures spent <= if level == 0 then 0 else FailuresAt(s, x, level - 1)
  {
    var copy := x.(retryCounts := level);
    assert copy.(retryCounts := level - 1) == x.(retryCounts := level - 1);
    CopiesFromSpent(n, s, copy);
    SpentBelow(c, s, copy);
    spent := |Spent(s, copy)|;
  }

  lemma EveryLevelOk(n: nat, c: Config, s: State, x: Job)
    requires Inv(n, c, s)
    ensures forall k: nat :: LevelOk(n, s, x, k)
  {
    forall k: nat
      ensures LevelOk(n, s, x, k)
    {
      var spent := SpentAt(n, c, s, x, k);
      LevelSources(n, s, x, k, spent);
    }
  }

  // ----- executions

  lemma AtTop(s: State, x: Job, ids: set<nat>, top: int) returns (here: set<nat>)
    requires ids <= Deliveries(s, x)
    ensures here <= ids && |here| <= CopiesAt(s, x, top)
    ensures forall i :: i in here <==> i in ids && s.st.stream.log[i].retryCounts == top
  {
    here := set i | i in ids && s.st.stream.log[i].retryCounts == top;
    forall i | i in here
      ensures i in Occurrences(s, x.(retryCounts := top))
    {
      assert s.st.stream.log[i] == Ident(s.st.stream.log[i]).(retryCounts := top);
    }
    SubsetSize(here, Occurrences(s, x.(retryCounts := top)));
  }

  /** Deliveries with levels in a range are bounded level by level. */
  lemma {:induction false} LevelsSum(n: nat, s: State, x: Job, ids: set<nat>, top: int)
    requires 0 <= x.retryCounts && forall level: nat :: CopiesAt(s, x, level) <= Allowed(n, x.retryCounts, level)
    requires ids <= Deliveries(s, x) && top >= x.retryCounts - 1
    requires forall i :: i in ids ==> x.retryCounts <= s.st.stream.log[i].retryCounts <= top
    ensures |ids| <= if top < x.retryCounts then 0 else Geo(n, top - x.retryCounts)
    decreases top - x.retryCounts
  {
    if top < x.retryCounts {
      assert ids == {};
    } else {
      var here := AtTop(s, x, ids, top);
      assert |here| <= Pow(n, top - x.retryCounts);
      LevelsSum(n, s, x, ids - here, top - 1);
      assert ids == (ids - here) + here;
      assert |ids| == |ids - here| + |here|;
    }
  }

  /** With n schedulers a job is delivered at most 1 + n + ... + n^(cap - base) times. */
  lemma DeliveriesBounded(n: nat, c: Config, s: State, x: Job)
    requires Inv(n, c, s) && UniqueCopy.AddedOnce(s) && x in s.h.added
    ensures 0 <= x.retryCounts <= Cap(c) && |Deliveries(s, x)| <= Geo(n, Cap(c) - x.retryCounts)
  {
    forall i | i in Deliveries(s, x)
      ensures x.retryCounts <= s.st.stream.log[i].retryCounts <= Cap(c)
    {
      var job := s.st.stream.log[i];
      var base := CopyExplained(c, s, job);
      SameSubmission(s, job.(retryCounts := base), x);
    }
    forall level: nat
      ensures 0 <= x.retryCounts && CopiesAt(s, x, level) <= Allowed(n, x.retryCounts, level)
    {
      CopiesAtLevel(n, c, s, x, level);
    }
    LevelsSum(n, s, x, Deliveries(s, x), Cap(c));
  }

  /** Hence a job submitted at level 0 is executed at most 1 + n + ... + n^cap times. */
  lemma ExecutionsInTree(n: nat, c: Config, s: State, x: Job)
    requires Inv(n, c, s) && UniqueCopy.AddedOnce(s) && x in s.h.added && x.retryCounts == 0
    ensures |Executions(s, x)| <= Geo(n, Cap(c))
  {
    DeliveriesBounded(n, c, s, x);
    ExecutionsAreDeliveries(s, x);
    SubsetSize(Executions(s, x), Deliveries(s, x));
  }

  /** The messages that are copies of the first m submissions. */
  lemma {:induction false} DeliveredOfFirst(s: State, most: nat, m: nat) returns (ids: set<nat>)
    requires m <= |s.h.added| && forall j :: 0 <= j < |s.h.added| ==> |Deliveries(s, s.h.added[j])| <= most
    ensures forall j, i :: 0 <= j < m && i in Deliveries(s, s.h.added[j]) ==> i in ids
    ensures |ids| <= m * most
    decreases m
  {
    if m == 0 {
      ids := {};
    } else {
      var rest := DeliveredOfFirst(s, most, m - 1);
      var more := Deliveries(s, s.h.added[m - 1]);
      ids := rest + more;
      UnionSize(rest, more);
      assert m * most == (m - 1) * most + most;
    }
  }

  lemma {:induction false} GeoMonotone(n: nat, a: nat, b: nat)
    requires a <= b
    ensures Geo(n, a) <= Geo(n, b)
  {
    if a < b {
      GeoMonotone(n, a, b - 1);
    }
  }

  lemma {:induction false} FirstNumbers(m: nat) returns (r: set<nat>)
    ensures |r| == m && forall i: nat :: i in r <==> i < m
  {
    if m == 0 {
      r := {};
    } else {
      var rest := FirstNumbers(m - 1);
      r := rest + {m - 1};
    }
  }

  /** A measure for the whole stage: deliveries never exceed a full tree per submission, so
      without new submissions only so many are left. */
  lemma DeliveriesInAll(n: nat, c: Config, s: State)
    requires Inv(n, c, s) && UniqueCopy.AddedOnce(s)
    ensures s.st.stream.cursor <= |s.h.added| * Geo(n, Cap(c))
  {
    forall j | 0 <= j < |s.h.added|
      ensures |Deliveries(s, s.h.added[j])| <= Geo(n, Cap(c))
    {
      DeliveriesBounded(n, c, s, s.h.added[j]);
      GeoMonotone(n, Cap(c) - s.h.added[j].retryCounts, Cap(c));
    }
    var ids := DeliveredOfFirst(s, Geo(n, Cap(c)), |s.h.added|);
    var all := FirstNumbers(s.st.stream.cursor);
    forall i | i in all
      ensures i in ids
    {
      DeliveredOfSome(c, s, i);
    }
    SubsetSize(all, ids);
  }

  lemma DeliveredOfSome(c: Config, s: State, i: nat)
    requires Records.Inv(c, s) && i < s.st.stream.cursor
    ensures exists j :: 0 <= j < |s.h.added| && i in Deliveries(s, s.h.added[j])
  {
    var job := s.st.stream.log[i];
    var base := CopyExplained(c, s, job);
    var j :| 0 <= j < |s.h.added| && s.h.added[j] == job.(retryCounts := base);
    assert i in Deliveries(s, s.h.added[j]);
  }

  /** Every read takes one step of the measure, and no other step gives any back. */
  lemma MeasureFalls(n: nat, c: Config, s: State, l: Label)
    requires Inv(n, c, s) && UniqueCopy.AddedOnce(s) && Enabled(s, l) && Calm(c, s, l, n) && !l.Submit?
    ensures
      var left := (t: State) => |t.h.added| * Geo(n, Cap(c)) - t.st.stream.cursor;
      0 <= left(Next(c, s, l)) == left(s) - if l.Read? && l.o.Applied() then 1 else 0
  {
    StepKeepsInv(n, c, s, l);
    AddedOnceStep(c, s, l);
    DeliveriesInAll(n, c, Next(c, s, l));
    if l.Read? {
      NextMessage(s.st.stream);
    } else if l.Work? {
      WorkSummary(c, s, l);
    } else {
      QuietSummary(c, s, l);
    }
  }

  /** One scheduler never delivers a copy twice; nor do several, where nothing is retried. */
  lemma DeliveredOnceBy(n: nat, c: Config, s: State)
    requires Inv(n, c, s) && UniqueCopy.AddedOnce(s) && (n <= 1 || Cap(c) == 0)
    ensures UniqueCopy.DeliveredOnce(s)
  {
    forall i, j | 0 <= i < j < s.st.stream.cursor
      ensures s.st.stream.log[i] != s.st.stream.log[j]
    {
      if s.st.stream.log[i] == s.st.stream.log[j] {
        var job := s.st.stream.log[i];
        var base := CopyExplained(c, s, job);
        var x := job.(retryCounts := base);
        CopiesAtLevel(n, c, s, x, job.retryCounts);
        AtMostOneCopy(n, c, base, job.retryCounts);
        assert x.(retryCounts := job.retryCounts) == job;
        assert {i, j} <= Occurrences(s, job);
        SubsetSize({i, j}, Occurrences(s, job));
      }
    }
  }

  lemma {:induction false} AtMostOneCopy(n: nat, c: Config, base: int, level: int)
    requires n <= 1 || level == base
    ensures Allowed(n, base, level) <= 1
    decreases level - base
  {
    if level > base {
      AtMostOneCopy(n, c, base, level - 1);
      assert Pow(n, level - base) == n * Pow(n, level - base - 1);
    }
  }
}
