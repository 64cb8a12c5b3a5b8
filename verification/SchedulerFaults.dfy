/**
  What the schedulers' own failures cost. Three events multiply a retry without bound, even
  with one scheduler: an XADD whose reply is lost, a ZREM without effect, a death between the
  two. All other failures of theirs are harmless. So whether a copy is delivered at most once,
  and whether a job keeps to MaxJobRetry + 1 executions, depends on the number of schedulers
  and on which of the three may happen, exactly as stated at the end.
*/
module SchedulerFaults {
  import opened Jobs
  import opened Backoff
  import opened Worker
  import opened Stage
  import opened Sets
  import opened Records
  import opened Multiplicity
  import opened Tightness
  import UniqueCopy

  // ----- more faults allow more runs

  lemma {:induction false} Wider(c: Config, n: nat, f: Faults, s: State, ls: seq<Label>)
    requires Legal(c, s, ls) && WithinRun(c, s, ls, n, NONE)
    ensures WithinRun(c, s, ls, n, f)
    decreases |ls|
  {
    if ls != [] {
      Wider(c, n, f, Next(c, s, ls[0]), ls[1..]);
    }
  }

  lemma ReachesToo(c: Config, n: nat, f: Faults, s: State, t: State)
    requires Reaches(c, n, NONE, s, t)
    ensures Reaches(c, n, f, s, t)
  {
    var ls :| Leads(c, n, NONE, s, ls, t);
    Wider(c, n, f, s, ls);
    assert Leads(c, n, f, s, ls, t);
  }

  // ----- one fault appends an entry and leaves it to be appended again

  /** Nothing but the log has changed. */
  ghost predicate LogOnly(s: State, t: State) {
    t == s.(st := s.st.(stream := s.st.stream.(log := t.st.stream.log)))
  }

  /** Scheduler 0 is at rest, the copy is due. */
  ghost predicate AtHand(s: State, n: nat, copy: Job) {
    1 <= n && |s.scheds| <= n && 0 in s.scheds && s.scheds[0] == Resting && Waiting(s, copy)
  }

  lemma FetchIt(c: Config, n: nat, f: Faults, s: State, copy: Job) returns (t: State)
    requires AtHand(s, n, copy)
    ensures Reaches(c, n, f, s, t) && t == s.(scheds := s.scheds[0 := Adding([copy])])
  {
    var l := Fetch(0, 300, [copy]);
    assert IsBatch(s.st.retry, 300, [copy]);
    t := Next(c, s, l);
    OneStep(c, n, f, s, l);
  }

  lemma AppendIt(c: Config, n: nat, f: Faults, s: State, copy: Job) returns (t: State)
    requires 0 in s.scheds && s.scheds[0] == Adding([copy])
    ensures Reaches(c, n, f, s, t) && t.scheds == s.scheds[0 := Removing([copy])]
    ensures LogOnly(s, t.(scheds := s.scheds)) && t.st.stream.log == s.st.stream.log + [copy]
  {
    var l := Move(0, Done);
    t := Next(c, s, l);
    OneStep(c, n, f, s, l);
  }

  lemma LoseReply(c: Config, n: nat, f: Faults, s: State, copy: Job) returns (t: State)
    requires f.lostAppend && 0 in s.scheds && s.scheds[0] == Adding([copy])
    ensures Reaches(c, n, f, s, t) && t.scheds == s.scheds[0 := Resting]
    ensures LogOnly(s, t.(scheds := s.scheds)) && t.st.stream.log == s.st.stream.log + [copy]
  {
    var l := Move(0, ReplyLost);
    t := Next(c, s, l);
    OneStep(c, n, f, s, l);
  }

  lemma KeepEntry(c: Config, n: nat, f: Faults, s: State, copy: Job) returns (t: State)
    requires f.failedRemoval && 0 in s.scheds && s.scheds[0] == Removing([copy])
    ensures Reaches(c, n, f, s, t) && t == s.(scheds := s.scheds[0 := Resting])
  {
    var l := Move(0, Refused);
    t := Next(c, s, l);
    OneStep(c, n, f, s, l);
  }

  /** The scheduler dies, and a new one takes its place. */
  lemma DieAndReturn(c: Config, n: nat, f: Faults, s: State, copy: Job) returns (t: State)
    requires f.crashBetween && 0 in s.scheds && s.scheds[0] == Removing([copy]) && |s.scheds| <= n
    ensures Reaches(c, n, f, s, t) && t == s.(scheds := s.scheds[0 := Resting])
  {
    var l0, l1 := CrashSched(0), SpawnSched(0);
    var a := Next(c, s, l0);
    OneStep(c, n, f, s, l0);
    assert s.scheds.Keys == a.scheds.Keys + {0};
    assert |a.scheds.Keys| == |s.scheds.Keys| - 1;
    t := Next(c, a, l1);
    OneStep(c, n, f, a, l1);
    Then(c, n, f, s, a, t);
    assert t.scheds == s.scheds[0 := Resting];
  }

  /** Each of the three appends the copy once more, and all else is as before. */
  lemma OneMoreCopy(c: Config, n: nat, f: Faults, s: State, copy: Job) returns (t: State)
    requires f != NONE && AtHand(s, n, copy)
    ensures Reaches(c, n, f, s, t) && LogOnly(s, t) && t.st.stream.log == s.st.stream.log + [copy]
  {
    var a := FetchIt(c, n, f, s, copy);
    if f.lostAppend {
      t := LoseReply(c, n, f, a, copy);
      Then(c, n, f, s, a, t);
    } else {
      var b := AppendIt(c, n, f, a, copy);
      assert b.scheds == s.scheds[0 := Removing([copy])];
      if f.failedRemoval {
        t := KeepEntry(c, n, f, b, copy);
      } else {
        assert b.scheds.Keys == s.scheds.Keys;
        assert |b.scheds.Keys| == |s.scheds.Keys|;
        t := DieAndReturn(c, n, f, b, copy);
      }
      Then(c, n, f, s, a, b);
      Then(c, n, f, s, b, t);
    }
    assert t.scheds == s.scheds;
  }

  lemma {:induction false} ManyCopies(c: Config, n: nat, f: Faults, s: State, copy: Job, m: nat) returns (t: State)
    requires f != NONE && AtHand(s, n, copy)
    ensures Reaches(c, n, f, s, t) && LogOnly(s, t) && t.st.stream.log == s.st.stream.log + seq(m, _ => copy)
    decreases m
  {
    if m == 0 {
      t := s;
      Stay(c, n, f, s);
      assert s.st.stream.log + seq(0, _ => copy) == s.st.stream.log;
    } else {
      var a := ManyCopies(c, n, f, s, copy, m - 1);
      t := OneMoreCopy(c, n, f, a, copy);
      Then(c, n, f, s, a, t);
      assert seq(m, _ => copy) == seq(m - 1, _ => copy) + [copy];
      assert s.st.stream.log + seq(m - 1, _ => copy) + [copy] == s.st.stream.log + seq(m, _ => copy);
    }
  }

  /** The job has failed once, and its retry is due. */
  lemma FailsOnce(c: Config, n: nat, x: Job) returns (t: State, copy: Job)
    requires 1 <= n && Cap(c) > 0 && x.retryCounts == 0
    ensures Reaches(c, n, NONE, INIT, t) && Handled(t, x, n, 0, 1) && copy == Level(x, 1) && Waiting(t, copy)
  {
    var s := Begin(c, n, x);
    t := FirstRetry(c, n, s, x);
    Then(c, n, NONE, INIT, s, t);
    copy := Level(x, 1);
  }

  lemma FirstRetry(c: Config, n: nat, s: State, x: Job) returns (t: State)
    requires 1 <= n && Cap(c) > 0 && Ready(s, x, n, 0, 1)
    ensures Reaches(c, n, NONE, s, t) && Handled(t, x, n, 0, 1) && Waiting(t, Level(x, 1))
  {
    assert Depth(n, 0) == 0;
    t := Retries(c, s, x, n, 0, 1);
  }

  lemma HandledOpen(s: State, t: State, x: Job, n: nat, copy: Job, m: nat)
    requires Handled(s, x, n, 0, 1) && LogOnly(s, t) && t.st.stream.log == s.st.stream.log + seq(m, _ => copy)
    requires copy == Level(x, 1) && x.retryCounts == 0
    ensures Open(t, t.st.stream.log, 1) && t.h.added == [x] && |t.st.stream.log| == 1 + m
    ensures forall j :: 0 <= j < |t.st.stream.log| ==> Ident(t.st.stream.log[j]) == Ident(x)
    ensures forall j :: 1 <= j < |t.st.stream.log| ==> t.st.stream.log[j] == copy
  {
    assert s.st.stream.log[0] == Level(x, Depth(n, 0));
  }

  lemma SomeScheduler(s: State, n: nat)
    requires AllRest(s, n) && 1 <= n
    ensures |s.scheds| <= n && 0 in s.scheds
  {
    var all := FirstNumbers(n);
    forall j | j in s.scheds.Keys
      ensures j in all
    {
    }
    SubsetSize(s.scheds.Keys, all);
  }

  /** With one of the three faults there is no bound on the executions of a job: all of these
      messages but the first are the same copy, and all are executed. */
  lemma Unbounded(c: Config, n: nat, f: Faults, x: Job, m: nat) returns (t: State)
    requires 1 <= n && f != NONE && Cap(c) > 0 && x.retryCounts == 0
    ensures Reaches(c, n, f, INIT, t) && x in t.h.added && |Executions(t, x)| >= m
    ensures m >= 2 ==> !UniqueCopy.DeliveredOnce(t)
  {
    var s, copy := FailsOnce(c, n, x);
    ReachesToo(c, n, f, INIT, s);
    SomeScheduler(s, n);
    var a := ManyCopies(c, n, f, s, copy, m);
    HandledOpen(s, a, x, n, copy, m);
    t := Leaves(c, n, a, a.st.stream.log, 1);
    ReachesToo(c, n, f, a, t);
    Then(c, n, f, INIT, s, a);
    Then(c, n, f, INIT, a, t);
    AllExecuted(t, a.st.stream.log, x);
    if m >= 2 {
      assert t.st.stream.log[1] == t.st.stream.log[2];
    }
  }

  // ----- without schedulers or retries there is nothing to go wrong

  ghost predicate NobodyBusy(s: State) {
    forall k :: k in s.scheds ==> s.scheds[k] == Resting
  }

  lemma RetryLevels(c: Config, s: State)
    requires Levels(c, s)
    ensures forall job :: job in s.st.retry.Keys ==> 1 <= job.retryCounts <= Cap(c)
  {
    forall job | job in s.st.retry.Keys
      ensures 1 <= job.retryCounts <= Cap(c)
    {
      assert ScheduledOk(c, s, job);
    }
  }

  lemma FetchNeeds(s: State, l: Label)
    requires Enabled(s, l)
    ensures l.Fetch? ==> l.k in s.scheds.Keys && l.batch[0] in s.st.retry.Keys
  {
    if l.Fetch? {
      assert Due(s.st.retry, l.now, l.batch[0]);
    }
  }

  lemma NothingFetched(c: Config, n: nat, s: State, l: Label)
    requires (n == 0 || Cap(c) == 0) && Multiplicity.Inv(n, c, s) && NobodyBusy(s) && Enabled(s, l)
    ensures NobodyBusy(Next(c, s, l))
  {
    FetchNeeds(s, l);
    RetryLevels(c, s);
    assert n == 0 ==> |s.scheds.Keys| == 0;
  }

  lemma {:induction false} NoFault(c: Config, n: nat, f: Faults, s: State, ls: seq<Label>)
    requires (n == 0 || Cap(c) == 0) && Multiplicity.Inv(n, c, s) && NobodyBusy(s)
    requires Legal(c, s, ls) && WithinRun(c, s, ls, n, f)
    ensures WithinRun(c, s, ls, n, NONE)
    decreases |ls|
  {
    if ls != [] {
      assert Calm(c, s, ls[0], n);
      Multiplicity.StepKeepsInv(n, c, s, ls[0]);
      NothingFetched(c, n, s, ls[0]);
      NoFault(c, n, f, Next(c, s, ls[0]), ls[1..]);
    }
  }

  /** The runs that keep the account of copies. */
  predicate Harmless(c: Config, n: nat, f: Faults) {
    n == 0 || Cap(c) == 0 || f == NONE
  }

  lemma HarmlessRun(c: Config, n: nat, f: Faults, t: State)
    requires Harmless(c, n, f) && Reaches(c, n, f, INIT, t)
    ensures Multiplicity.Inv(n, c, t) && UniqueCopy.AddedOnce(t)
  {
    var ls :| Leads(c, n, f, INIT, ls, t);
    Begins(n, c);
    if f != NONE {
      NoFault(c, n, f, INIT, ls);
    }
    Multiplicity.Reachable(n, c, ls);
  }

  // ----- exact conditions

  /** In every run with n schedulers and these faults no copy of a job is delivered twice at
      one retry count. */
  ghost predicate DeliversOnce(c: Config, n: nat, f: Faults) {
    forall t :: Reaches(c, n, f, INIT, t) ==> UniqueCopy.DeliveredOnce(t)
  }

  /** That is so exactly if there is no scheduler, or nothing is ever retried, or one scheduler
      is at work and none of the three faults can happen. */
  lemma DeliversOnceExactly(c: Config, n: nat, f: Faults)
    ensures DeliversOnce(c, n, f) <==> n == 0 || Cap(c) == 0 || (n == 1 && f == NONE)
  {
    var x := Job(1, 1, 1, "", "", "", 0);
    if n == 0 || Cap(c) == 0 || (n == 1 && f == NONE) {
      forall t | Reaches(c, n, f, INIT, t)
        ensures UniqueCopy.DeliveredOnce(t)
      {
        HarmlessRun(c, n, f, t);
        DeliveredOnceBy(n, c, t);
      }
    } else if f != NONE {
      var t := Unbounded(c, n, f, x, 2);
    } else {
      var t := DeliveredTwice(c, n, x);
    }
  }

  /** The budget the configuration suggests, in every run with n schedulers and these faults. */
  ghost predicate KeepsBudget(c: Config, n: nat, f: Faults) {
    forall t, x :: Reaches(c, n, f, INIT, t) && x in t.h.added && x.retryCounts == 0 ==>
      |Executions(t, x)| <= c.maxRetry + 1
  }

  lemma ReachedBudget(c: Config, n: nat, f: Faults, t: State, x: Job)
    requires Harmless(c, n, f) && Reaches(c, n, f, INIT, t) && x in t.h.added && x.retryCounts == 0
    ensures |Executions(t, x)| <= Geo(n, Cap(c))
  {
    HarmlessRun(c, n, f, t);
    ExecutionsInTree(n, c, t, x);
  }

  /** MaxJobRetry + 1 executions are the limit exactly if no fault can multiply a retry and the
      tree of copies is no larger. */
  lemma BudgetKeptExactly(c: Config, n: nat, f: Faults)
    ensures KeepsBudget(c, n, f) <==> Harmless(c, n, f) && Geo(n, Cap(c)) <= c.maxRetry + 1
  {
    var x := Job(1, 1, 1, "", "", "", 0);
    if !Harmless(c, n, f) {
      var t := Unbounded(c, n, f, x, if c.maxRetry < 0 then 1 else c.maxRetry + 2);
    } else if Geo(n, Cap(c)) <= c.maxRetry + 1 {
      forall t, x | Reaches(c, n, f, INIT, t) && x in t.h.added && x.retryCounts == 0
        ensures |Executions(t, x)| <= c.maxRetry + 1
      {
        ReachedBudget(c, n, f, t, x);
      }
    } else {
      var t := BudgetIsReached(c, n, x);
      ReachesToo(c, n, f, INIT, t);
    }
  }

  /** In terms of the configuration. With one scheduler the dead-letter branch must be
      exclusive, or MaxJobRetry lie at or beyond the last count the backoff survives. With
      several there must be no retries at all, or a MaxJobRetry past the full tree. With one of
      the faults there must be no retries at all. */
  lemma BudgetConditions(c: Config, n: nat, f: Faults)
    ensures n == 0 ==> (KeepsBudget(c, n, f) <==> 0 <= c.maxRetry)
    ensures n == 1 && f == NONE ==>
      (KeepsBudget(c, n, f) <==> (c.exclusiveDlq && 0 <= c.maxRetry) || c.maxRetry >= LAST_SAFE_RETRY)
    ensures n >= 2 && f == NONE ==>
      (KeepsBudget(c, n, f) <==> (c.exclusiveDlq && c.maxRetry == 0) || c.maxRetry + 1 >= Geo(n, LAST_SAFE_RETRY))
    ensures n >= 1 && f != NONE ==> (KeepsBudget(c, n, f) <==> c.exclusiveDlq && c.maxRetry == 0)
  {
    BudgetKeptExactly(c, n, f);
    NoSchedulers(Cap(c));
    OneScheduler(Cap(c));
    if n >= 2 {
      SeveralSchedulers(n, LAST_SAFE_RETRY);
      if Cap(c) > 0 {
        SeveralSchedulers(n, Cap(c));
      }
    }
  }
}
