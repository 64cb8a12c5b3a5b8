/**
  How often a job is executed over both stages, with n schedulers per stage. Its e-mail jobs
  start at the retry counts at which the story succeeded, one for each success at most; so the
  failures of both stages together stay within one tree of copies, and every success costs a
  path of that tree.
*/
module StageBudget {
  import opened Jobs
  import opened Sets
  import opened Worker
  import opened Stage
  import opened Records
  import opened Multiplicity
  import UniqueCopy
  import P = Pipeline

  /** At most n schedulers per stage and none of the three faults; the API submits new jobs. */
  ghost predicate CalmStep(ps: P.Params, g: P.System, p: P.Step, n: nat) {
    match p
    case StoryStep(l, _) => Calm(ps.Story(), g.story, l, n) && Fresh(g.story, l)
    case EmailStep(l) => Calm(ps.Email(), g.email, l, n)
  }

  ghost predicate CalmSteps(ps: P.Params, g: P.System, steps: seq<P.Step>, n: nat)
    requires P.Possible(ps, g, steps)
    decreases |steps|
  {
    steps == [] || (CalmStep(ps, g, steps[0], n) && CalmSteps(ps, P.After(ps, g, steps[0]), steps[1..], n))
  }

  // ----- both stages keep the account of copies

  ghost predicate Counted(ps: P.Params, g: P.System, n: nat) {
    && P.Inv(ps, g) && UniqueCopy.AddedOnce(g.story)
    && Multiplicity.Inv(n, ps.Story(), g.story) && Multiplicity.Inv(n, ps.Email(), g.email)
  }

  lemma StoryKeepsCount(ps: P.Params, g: P.System, p: P.Step, n: nat)
    requires Counted(ps, g, n) && P.CanStep(g, p) && CalmStep(ps, g, p, n) && p.StoryStep?
    ensures UniqueCopy.AddedOnce(P.After(ps, g, p).story)
    ensures Multiplicity.Inv(n, ps.Story(), P.After(ps, g, p).story)
  {
    Multiplicity.StepKeepsInv(n, ps.Story(), g.story, p.l);
    AddedOnceStep(ps.Story(), g.story, p.l);
  }

  /** The e-mail stage takes its own step, or the signal of the story stage. */
  lemma EmailKeepsCount(ps: P.Params, g: P.System, p: P.Step, n: nat)
    requires Counted(ps, g, n) && P.CanStep(g, p) && CalmStep(ps, g, p, n)
    ensures Multiplicity.Inv(n, ps.Email(), P.After(ps, g, p).email)
  {
    if p.EmailStep? {
      Multiplicity.StepKeepsInv(n, ps.Email(), g.email, p.l);
    } else {
      var signal := P.Signal(g.story, p.l, p.key);
      if signal.Some? {
        P.SignalWithin(ps, g, p);
        Multiplicity.StepKeepsInv(n, ps.Email(), g.email, signal.value);
      }
    }
  }

  lemma StepKeepsCount(ps: P.Params, g: P.System, p: P.Step, n: nat)
    requires Counted(ps, g, n) && P.CanStep(g, p) && CalmStep(ps, g, p, n)
    ensures Counted(ps, P.After(ps, g, p), n)
  {
    P.StepKeepsInv(ps, g, p);
    EmailKeepsCount(ps, g, p, n);
    if p.StoryStep? {
      StoryKeepsCount(ps, g, p, n);
    }
  }

  lemma {:induction false} RunKeepsCount(ps: P.Params, g: P.System, steps: seq<P.Step>, n: nat)
    requires Counted(ps, g, n) && P.Possible(ps, g, steps) && CalmSteps(ps, g, steps, n)
    ensures Counted(ps, P.End(ps, g, steps), n)
    decreases |steps|
  {
    if steps != [] {
      StepKeepsCount(ps, g, steps[0], n);
      RunKeepsCount(ps, P.After(ps, g, steps[0]), steps[1..], n);
    }
  }

  lemma Reached(ps: P.Params, steps: seq<P.Step>, n: nat)
    requires P.Possible(ps, P.START, steps) && CalmSteps(ps, P.START, steps, n)
    ensures Counted(ps, P.End(ps, P.START, steps), n)
  {
    Begins(n, ps.Story());
    Begins(n, ps.Email());
    RunKeepsCount(ps, P.START, steps, n);
  }

  // ----- level by level

  ghost function Successes(s: State, copy: Job): set<nat> {
    set id | id in s.h.done && id < |s.st.stream.log| && s.st.stream.log[id] == copy
  }

  ghost function SuccessesAt(s: State, x: Job, level: int): nat {
    |Successes(s, x.(retryCounts := level))|
  }

  /** The ids of the first m notifications that were of this copy. */
  lemma {:induction false} NotifiedFrom(s: State, copy: Job, m: nat) returns (ids: set<nat>)
    requires Shape(s) && m <= |s.h.outFrom| == |s.st.outbox| && Distinct(s.h.outFrom)
    requires forall i :: 0 <= i < |s.h.outFrom| ==> s.h.outFrom[i] in s.h.done && s.st.stream.log[s.h.outFrom[i]] == s.st.outbox[i]
    ensures ids <= Successes(s, copy) && |ids| == multiset(s.st.outbox[..m])[copy]
    ensures forall id :: id in ids ==> id in s.h.outFrom[..m]
    decreases m
  {
    if m == 0 {
      ids := {};
    } else {
      var rest := NotifiedFrom(s, copy, m - 1);
      assert s.st.outbox[..m] == s.st.outbox[..m - 1] + [s.st.outbox[m - 1]];
      var id := s.h.outFrom[m - 1];
      assert id !in rest;
      ids := if s.st.outbox[m - 1] == copy then rest + {id} else rest;
    }
  }

  /** Each e-mail job comes from its own success of the same copy as a story. */
  lemma SubmittedBySuccess(ps: P.Params, g: P.System, copy: Job)
    requires P.Inv(ps, g)
    ensures Submitted(g.email, copy) <= |Successes(g.story, copy)|
  {
    var s := g.story;
    OutSources(ps.Story(), s);
    var ids := NotifiedFrom(s, copy, |s.st.outbox|);
    assert s.st.outbox[..|s.st.outbox|] == s.st.outbox;
    SubsetSize(ids, Successes(s, copy));
  }

  lemma OutSources(c: Config, s: State)
    requires Shape(s) && OutOk(c, s)
    ensures |s.h.outFrom| == |s.st.outbox| && Distinct(s.h.outFrom)
    ensures forall i :: 0 <= i < |s.h.outFrom| ==> s.h.outFrom[i] in s.h.done && s.st.stream.log[s.h.outFrom[i]] == s.st.outbox[i]
  {
    forall i | 0 <= i < |s.h.outFrom|
      ensures s.h.outFrom[i] in s.h.done
    {
      assert s.h.outFrom[i] in s.h.outFrom;
    }
  }

  /** What the level below and the story's successes allow at this level. */
  ghost predicate LevelCounts(g: P.System, x: Job, n: nat, k: nat) {
    && FailuresAt(g.story, x, k) + SuccessesAt(g.story, x, k) <= (if k == 0 then 1 else n * FailuresAt(g.story, x, k - 1))
    && CopiesAt(g.email, x, k) <= (if k == 0 then 0 else n * CopiesAt(g.email, x, k - 1)) + SuccessesAt(g.story, x, k)
  }

  lemma Verdicts(s: State, copy: Job)
    requires Shape(s)
    ensures |Failures(s, copy)| + |Successes(s, copy)| <= |Occurrences(s, copy)|
  {
    assert Failures(s, copy) !! Successes(s, copy);
    assert |Failures(s, copy) + Successes(s, copy)| == |Failures(s, copy)| + |Successes(s, copy)|;
    SubsetSize(Failures(s, copy) + Successes(s, copy), Occurrences(s, copy));
  }

  lemma StoryCounts(ps: P.Params, g: P.System, x: Job, n: nat, k: nat)
    requires Shape(g.story) && UniqueCopy.AddedOnce(g.story) && x in g.story.h.added && x.retryCounts == 0
    requires LevelOk(n, g.story, x, k)
    ensures FailuresAt(g.story, x, k) + SuccessesAt(g.story, x, k) <= if k == 0 then 1 else n * FailuresAt(g.story, x, k - 1)
  {
    Verdicts(g.story, x.(retryCounts := k));
    SubmittedOnce(g.story, x, k);
  }

  lemma EmailCounts(ps: P.Params, g: P.System, x: Job, n: nat, k: nat)
    requires P.Inv(ps, g) && LevelOk(n, g.email, x, k) && (k > 0 ==> LevelOk(n, g.email, x, k - 1))
    ensures CopiesAt(g.email, x, k) <= (if k == 0 then 0 else n * CopiesAt(g.email, x, k - 1)) + SuccessesAt(g.story, x, k)
  {
    SubmittedBySuccess(ps, g, x.(retryCounts := k));
    if k > 0 {
      Times(n, FailuresAt(g.email, x, k - 1), CopiesAt(g.email, x, k - 1));
    }
  }

  lemma EveryLevel(ps: P.Params, g: P.System, x: Job, n: nat)
    requires Counted(ps, g, n) && x in g.story.h.added
    ensures forall k: nat :: LevelCounts(g, x, n, k)
  {
    EveryLevelOk(n, ps.Story(), g.story, x);
    EveryLevelOk(n, ps.Email(), g.email, x);
    forall k: nat
      ensures LevelCounts(g, x, n, k)
    {
      assert LevelOk(n, g.story, x, k) && LevelOk(n, g.email, x, k);
      assert k > 0 ==> LevelOk(n, g.email, x, k - 1);
      StoryCounts(ps, g, x, n, k);
      EmailCounts(ps, g, x, n, k);
    }
  }

  // ----- the sum over all levels

  function Sum(q: seq<nat>): nat {
    if q == [] then 0 else Sum(q[..|q| - 1]) + q[|q| - 1]
  }

  /** The most that one submission can cost both stages, with retry counts up to m. */
  function Most(n: nat, m: nat): nat {
    Geo(n, m) + if n == 0 then 1 else Pow(n, m)
  }

  predicate Row(n: nat, f: seq<nat>, d: seq<nat>, e: seq<nat>, k: nat)
    requires k < |f| == |d| == |e|
  {
    && f[k] + d[k] <= (if k == 0 then 1 else n * f[k - 1])
    && e[k] <= (if k == 0 then 0 else n * e[k - 1]) + d[k]
  }

  /** Failures f and successes d of the story, copies e of its e-mails. A success keeps what is
      below it from failing, so successes weigh no more than a full last level. */
  lemma {:induction false} Totals(n: nat, f: seq<nat>, d: seq<nat>, e: seq<nat>)
    requires |f| == |d| == |e| && f != [] && forall k :: 0 <= k < |f| ==> Row(n, f, d, e, k)
    ensures
      var m := |f| - 1;
      && f[m] + e[m] <= Pow(n, m) && Sum(f) + Sum(e) <= Geo(n, m)
      && Sum(d) + f[m] <= if n == 0 then 1 else Pow(n, m)
    decreases |f|
  {
    var m := |f| - 1;
    assert Row(n, f, d, e, m);
    var f0, d0, e0 := f[..m], d[..m], e[..m];
    if m > 0 {
      forall k | 0 <= k < m
        ensures Row(n, f0, d0, e0, k)
      {
        assert Row(n, f, d, e, k);
      }
      Totals(n, f0, d0, e0);
      LastLevel(n, f0[m - 1], e0[m - 1], Sum(d0), Pow(n, m - 1));
    }
  }

  lemma LastLevel(n: nat, f: nat, e: nat, d: nat, most: nat)
    requires f + e <= most && d + f <= if n == 0 then 1 else most
    ensures n * f + n * e <= n * most
    ensures d + n * f <= if n == 0 then 1 else n * most
  {
    Times(n, f + e, most);
    assert n * (f + e) == n * f + n * e;
    if n > 0 {
      Times(n, d + f, most);
      assert n * (d + f) == n * d + n * f;
      assert n * d == d + (n - 1) * d;
    }
  }

  ghost function AtLevel(s: State, ids: set<nat>, k: int): set<nat> {
    set i | i in ids && i < |s.st.stream.log| && s.st.stream.log[i].retryCounts == k
  }

  /** A set of messages is no larger than the sum over its levels. */
  lemma {:induction false} LevelSums(s: State, ids: set<nat>, counts: seq<nat>)
    requires forall i :: i in ids ==> i < |s.st.stream.log| && 0 <= s.st.stream.log[i].retryCounts < |counts|
    requires forall k :: 0 <= k < |counts| ==> |AtLevel(s, ids, k)| <= counts[k]
    ensures |ids| <= Sum(counts)
    decreases |counts|
  {
    if counts == [] {
      assert ids == {};
    } else {
      var m := |counts| - 1;
      var top := AtLevel(s, ids, m);
      var rest := ids - top;
      forall k | 0 <= k < m
        ensures |AtLevel(s, rest, k)| <= counts[..m][k]
      {
        assert AtLevel(s, rest, k) == AtLevel(s, ids, k);
      }
      LevelSums(s, rest, counts[..m]);
      assert ids == rest + top;
      assert |ids| == |rest| + |top|;
    }
  }

  // ----- the budget

  lemma OfLevel(s: State, x: Job, ids: set<nat>, k: int)
    requires forall i :: i in ids ==> i < |s.st.stream.log| && Ident(s.st.stream.log[i]) == Ident(x)
    ensures forall i :: i in AtLevel(s, ids, k) ==> s.st.stream.log[i] == x.(retryCounts := k)
  {
    forall i | i in AtLevel(s, ids, k)
      ensures s.st.stream.log[i] == x.(retryCounts := k)
    {
      assert s.st.stream.log[i] == Ident(s.st.stream.log[i]).(retryCounts := k);
    }
  }

  lemma FailedExecutions(c: Config, s: State, x: Job, f: seq<nat>) returns (ids: set<nat>)
    requires Shape(s) && Levels(c, s) && |f| == Cap(c) + 1
    requires forall k :: 0 <= k < |f| ==> FailuresAt(s, x, k) <= f[k]
    ensures forall i :: i in ids <==> i in s.h.failed && i < |s.st.stream.log| && Ident(s.st.stream.log[i]) == Ident(x)
    ensures |ids| <= Sum(f)
  {
    WithinCap(c, s);
    ids := set i | i in s.h.failed && i < |s.st.stream.log| && Ident(s.st.stream.log[i]) == Ident(x);
    forall k | 0 <= k < |f|
      ensures |AtLevel(s, ids, k)| <= f[k]
    {
      OfLevel(s, x, ids, k);
      SubsetSize(AtLevel(s, ids, k), Failures(s, x.(retryCounts := k)));
    }
    LevelSums(s, ids, f);
  }

  lemma DoneExecutions(c: Config, s: State, x: Job, d: seq<nat>) returns (ids: set<nat>)
    requires Shape(s) && Levels(c, s) && |d| == Cap(c) + 1
    requires forall k :: 0 <= k < |d| ==> SuccessesAt(s, x, k) <= d[k]
    ensures forall i :: i in ids <==> i in s.h.done && i < |s.st.stream.log| && Ident(s.st.stream.log[i]) == Ident(x)
    ensures |ids| <= Sum(d)
  {
    WithinCap(c, s);
    ids := set i | i in s.h.done && i < |s.st.stream.log| && Ident(s.st.stream.log[i]) == Ident(x);
    forall k | 0 <= k < |d|
      ensures |AtLevel(s, ids, k)| <= d[k]
    {
      OfLevel(s, x, ids, k);
      SubsetSize(AtLevel(s, ids, k), Successes(s, x.(retryCounts := k)));
    }
    LevelSums(s, ids, d);
  }

  /** The story's executions, split by their verdicts. */
  lemma StoryExecutions(c: Config, s: State, x: Job, f: seq<nat>, d: seq<nat>)
    requires Shape(s) && Levels(c, s) && |f| == |d| == Cap(c) + 1
    requires forall k :: 0 <= k < |f| ==> FailuresAt(s, x, k) <= f[k] && SuccessesAt(s, x, k) <= d[k]
    ensures |Executions(s, x)| <= Sum(f) + Sum(d)
  {
    var failed := FailedExecutions(c, s, x, f);
    var done := DoneExecutions(c, s, x, d);
    assert Executions(s, x) == failed + done;
    UnionSize(failed, done);
  }

  lemma EmailExecutions(c: Config, s: State, x: Job, e: seq<nat>)
    requires Shape(s) && Levels(c, s) && |e| == Cap(c) + 1
    requires forall k :: 0 <= k < |e| ==> CopiesAt(s, x, k) <= e[k]
    ensures |Executions(s, x)| <= Sum(e)
  {
    WithinCap(c, s);
    var ids := Executions(s, x);
    forall k | 0 <= k < |e|
      ensures |AtLevel(s, ids, k)| <= e[k]
    {
      OfLevel(s, x, ids, k);
      SubsetSize(AtLevel(s, ids, k), Occurrences(s, x.(retryCounts := k)));
    }
    LevelSums(s, ids, e);
  }

  lemma WithinCap(c: Config, s: State)
    requires Levels(c, s)
    ensures forall i :: 0 <= i < |s.st.stream.log| ==> 0 <= s.st.stream.log[i].retryCounts <= Cap(c)
  {
    forall i | 0 <= i < |s.st.stream.log|
      ensures 0 <= s.st.stream.log[i].retryCounts <= Cap(c)
    {
      assert s.st.stream.log[i] in s.h.added || ScheduledOk(c, s, s.st.stream.log[i]);
    }
  }

  /** The counts of all levels as sequences. */
  lemma Rows(g: P.System, x: Job, n: nat, m: nat) returns (f: seq<nat>, d: seq<nat>, e: seq<nat>)
    requires forall k: nat :: LevelCounts(g, x, n, k)
    ensures |f| == |d| == |e| == m + 1 && forall k :: 0 <= k <= m ==> Row(n, f, d, e, k)
    ensures forall k :: 0 <= k <= m ==> FailuresAt(g.story, x, k) <= f[k] && SuccessesAt(g.story, x, k) <= d[k]
    ensures forall k :: 0 <= k <= m ==> CopiesAt(g.email, x, k) <= e[k]
  {
    f := seq(m + 1, k => FailuresAt(g.story, x, k));
    d := seq(m + 1, k => SuccessesAt(g.story, x, k));
    e := seq(m + 1, k => CopiesAt(g.email, x, k));
    forall k | 0 <= k <= m
      ensures Row(n, f, d, e, k)
    {
      assert LevelCounts(g, x, n, k);
    }
  }

  lemma BothBounded(ps: P.Params, g: P.System, job: Job, n: nat)
    requires Counted(ps, g, n) && job in g.story.h.added
    ensures |Executions(g.story, job)| + |Executions(g.email, job)| <= Most(n, Cap(ps.Story()))
  {
    EveryLevel(ps, g, job, n);
    var f, d, e := Rows(g, job, n, Cap(ps.Story()));
    Totals(n, f, d, e);
    StoryExecutions(ps.Story(), g.story, job, f, d);
    EmailExecutions(ps.Email(), g.email, job, e);
  }

  lemma StoryBounded(ps: P.Params, g: P.System, job: Job, n: nat)
    requires Counted(ps, g, n) && job in g.story.h.added
    ensures |Executions(g.story, job)| <= Geo(n, Cap(ps.Story()))
  {
    ExecutionsInTree(n, ps.Story(), g.story, job);
  }

  /** With n schedulers per stage, and none of the three faults, a job is executed at most
      1 + n + ... + n^cap times as a story, and at most n^cap times more over both stages. The
      cap is MaxJobRetry when the dead-letter branch is exclusive, and otherwise 32, where the
      backoff panics. */
  lemma ExecutionsBounded(ps: P.Params, steps: seq<P.Step>, n: nat, job: Job)
    requires P.Possible(ps, P.START, steps) && CalmSteps(ps, P.START, steps, n)
    requires job in P.End(ps, P.START, steps).story.h.added
    ensures
      var g, cap := P.End(ps, P.START, steps), Cap(ps.Story());
      && |Executions(g.story, job)| <= Geo(n, cap)
      && |Executions(g.story, job)| + |Executions(g.email, job)| <= Most(n, cap)
  {
    Reached(ps, steps, n);
    StoryBounded(ps, P.End(ps, P.START, steps), job, n);
    BothBounded(ps, P.End(ps, P.START, steps), job, n);
  }
}
