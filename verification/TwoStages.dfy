/**
  The budget over both stages is reached, for every number of schedulers: all copies of a job
  below the cap fail as stories, those at the cap succeed, and all their e-mails fail once
  more at the same retry count.
*/
module TwoStages {
  import opened Jobs
  import opened Sets
  import opened Worker
  import opened Stage
  import opened Records
  import opened Multiplicity
  import opened Pipeline
  import opened StageBudget
  import T = Tightness

  // ----- the last copies succeed as stories

  /** Worker w holds message i and is about to make this call. */
  ghost predicate Succeeding(s: State, w: nat, i: nat, phase: Phase) {
    w in s.workers && i < |s.st.stream.log| && s.workers[w] == At(phase, i, s.st.stream.log[i])
  }

  /** The same messages and failures; at most message i was deleted. */
  ghost predicate Beside(s: State, t: State, i: nat) {
    && t.st.stream.log == s.st.stream.log && t.st.stream.cursor == s.st.stream.cursor
    && t.st.stream.deleted <= s.st.stream.deleted + {i}
    && t.workers.Keys == s.workers.Keys && t.h.added == s.h.added && t.h.failed == s.h.failed
  }

  /** A call that succeeds on the way to the notification. */
  lemma SuccessCall(c: Config, n: nat, s: State, w: nat, i: nat, phase: Phase) returns (t: State)
    requires Succeeding(s, w, i, phase) && c.notifies && c.execOps == 3
    requires (phase.Running? && phase.op <= 2) || phase.OkAck? || phase.OkDelete? || phase.OkNotify?
    ensures T.Reaches(c, n, NONE, s, t) && Beside(s, t, i)
    ensures Succeeding(t, w, i, Advance(c, phase, s.st.stream.log[i], true).value)
    ensures t.h.done == if phase == Running(2) then s.h.done + {i} else s.h.done
    ensures t.st.outbox == if phase.OkNotify? then s.st.outbox + [s.st.stream.log[i]] else s.st.outbox
  {
    var l := Work(w, Done, 0, 0);
    t := Next(c, s, l);
    T.OneStep(c, n, NONE, s, l);
  }

  /** The three steps of the execution. */
  lemma Executes(c: Config, n: nat, s: State, w: nat, i: nat) returns (t: State)
    requires Succeeding(s, w, i, Running(0)) && c.notifies && c.execOps == 3
    ensures T.Reaches(c, n, NONE, s, t) && Beside(s, t, i) && Succeeding(t, w, i, OkAck)
    ensures t.h.done == s.h.done + {i} && t.st.outbox == s.st.outbox
  {
    var a := SuccessCall(c, n, s, w, i, Running(0));
    var b := SuccessCall(c, n, a, w, i, Running(1));
    t := SuccessCall(c, n, b, w, i, Running(2));
    T.Then(c, n, NONE, s, a, b);
    T.Then(c, n, NONE, s, b, t);
  }

  /** The calls of OnSuccess up to the notification. */
  lemma Notifies(c: Config, n: nat, s: State, w: nat, i: nat) returns (t: State)
    requires Succeeding(s, w, i, OkAck) && c.notifies && c.execOps == 3
    ensures T.Reaches(c, n, NONE, s, t) && Beside(s, t, i)
    ensures t.h.done == s.h.done && t.st.outbox == s.st.outbox + [s.st.stream.log[i]]
  {
    var a := SuccessCall(c, n, s, w, i, OkAck);
    var b := SuccessCall(c, n, a, w, i, OkDelete);
    t := SuccessCall(c, n, b, w, i, OkNotify);
    T.Then(c, n, NONE, s, a, b);
    T.Then(c, n, NONE, s, b, t);
  }

  /** Messages before i failed, those from i to j succeeded and notified. */
  ghost predicate Told(s: State, log: seq<Job>, i: nat, j: nat) {
    && s.st.stream.log == log && i <= j <= |log| && s.st.stream.cursor == j
    && (forall id :: id in s.st.stream.deleted ==> id < j)
    && (forall w :: w in s.workers ==> w <= j)
    && s.h.failed == T.UpTo(i) && s.h.done == T.UpTo(j) - T.UpTo(i)
    && s.st.outbox == log[i..j]
  }

  /** A fresh worker reads message j. */
  lemma Starts(c: Config, n: nat, s: State, j: nat) returns (t: State)
    requires j + 1 !in s.workers && s.st.stream.cursor == j < |s.st.stream.log|
    requires forall id :: id in s.st.stream.deleted ==> id < j
    ensures T.Reaches(c, n, NONE, s, t)
    ensures t == s.(st := s.st.(stream := s.st.stream.Deliver(j)),
                    workers := s.workers[j + 1 := At(Running(0), j, s.st.stream.log[j])])
  {
    var a := T.SpawnNext(c, n, s, j + 1);
    t := T.ReadNext(c, n, a, j + 1);
    T.Then(c, n, NONE, s, a, t);
  }

  lemma ToldNext(s: State, a: State, t: State, log: seq<Job>, i: nat, j: nat)
    requires Told(s, log, i, j) && j < |log| && Beside(a, t, j)
    requires a.st.stream == s.st.stream.Deliver(j) && a.h == s.h && a.workers.Keys == s.workers.Keys + {j + 1}
    requires t.h.done == s.h.done + {j} && t.st.outbox == s.st.outbox + [log[j]]
    ensures Told(t, log, i, j + 1)
  {
    assert T.UpTo(j + 1) == T.UpTo(j) + {j};
    assert log[i..j + 1] == log[i..j] + [log[j]];
    forall w | w in t.workers
      ensures w <= j + 1
    {
      assert w in t.workers.Keys;
    }
  }

  lemma TellOne(c: Config, n: nat, s: State, log: seq<Job>, i: nat, j: nat) returns (t: State)
    requires Told(s, log, i, j) && j < |log| && c.notifies && c.execOps == 3
    ensures T.Reaches(c, n, NONE, s, t) && Told(t, log, i, j + 1) && t.h.added == s.h.added
  {
    var a := Starts(c, n, s, j);
    var b := Executes(c, n, a, j + 1, j);
    t := Notifies(c, n, b, j + 1, j);
    T.Then(c, n, NONE, s, a, b);
    T.Then(c, n, NONE, s, b, t);
    ToldNext(s, a, t, log, i, j);
  }

  lemma {:induction false} TellAll(c: Config, n: nat, s: State, log: seq<Job>, i: nat, j: nat) returns (t: State)
    requires Told(s, log, i, j) && c.notifies && c.execOps == 3
    ensures T.Reaches(c, n, NONE, s, t) && Told(t, log, i, |log|) && t.h.added == s.h.added
    decreases |log| - j
  {
    if j == |log| {
      t := s;
      T.Stay(c, n, NONE, s);
    } else {
      var a := TellOne(c, n, s, log, i, j);
      t := TellAll(c, n, a, log, i, j + 1);
      T.Then(c, n, NONE, s, a, t);
    }
  }

  lemma NotifiedIsDone(c: Config, s: State)
    requires OutOk(c, s) && s.st.outbox != []
    ensures exists id :: id in s.h.done
  {
    assert s.h.outFrom[0] in s.h.outFrom;
  }

  /** All that was delivered has failed, so nothing was done, and nothing notified. */
  lemma NothingDone(c: Config, s: State, x: Job, n: nat, i: nat, size: nat)
    requires Shape(s) && OutOk(c, s) && T.Ready(s, x, n, i, size)
    ensures s.st.outbox == [] && s.h.done == {}
  {
    assert forall id :: id in s.h.done ==> id in s.h.failed;
    if s.st.outbox != [] {
      NotifiedIsDone(c, s);
    }
  }

  /** All copies below the cap have failed, no other was delivered. */
  lemma FailsToTheCap(c: Config, n: nat, x: Job) returns (t: State)
    requires x.retryCounts == 0
    ensures T.Reaches(c, n, NONE, INIT, t) && T.Ready(t, x, n, T.Inner(c, n), Geo(n, Cap(c)))
    ensures t.st.outbox == [] && t.h.done == {}
  {
    t := T.Grow(c, n, x);
    var ls :| T.Leads(c, n, NONE, INIT, ls, t);
    Reachable(n, c, ls);
    NothingDone(c, t, x, n, T.Inner(c, n), Geo(n, Cap(c)));
  }

  lemma StoryTold(c: Config, n: nat, x: Job) returns (t: State, log: seq<Job>)
    requires x.retryCounts == 0 && c.notifies && c.execOps == 3
    ensures T.Reaches(c, n, NONE, INIT, t) && |log| == Geo(n, Cap(c)) && t.h.added == [x]
    ensures T.Inner(c, n) <= |log| && Told(t, log, T.Inner(c, n), |log|)
    ensures forall j :: 0 <= j < |log| ==> Ident(log[j]) == Ident(x)
  {
    var i := T.Inner(c, n);
    var s := FailsToTheCap(c, n, x);
    log := s.st.stream.log;
    assert T.UpTo(i) - T.UpTo(i) == {} && log[i..i] == [];
    t := TellAll(c, n, s, log, i, i);
    T.Then(c, n, NONE, INIT, s, t);
  }

  // ----- a run of the story stage is part of a run of both

  /** The e-mail stage has received the notifications and done nothing yet. */
  ghost predicate Untouched(g: System) {
    && g.email.st.stream == EMPTY_STREAM.(log := g.story.st.outbox)
    && g.email.workers == map[] && g.email.h.failed == {}
  }

  lemma {:induction false} LargerThanAll(used: set<int>) returns (k: int)
    ensures forall i :: i in used ==> i < k
    decreases |used|
  {
    if forall i :: i !in used {
      k := 0;
    } else {
      var i :| i in used;
      var r := LargerThanAll(used - {i});
      k := if i < r then r else i + 1;
      assert used == (used - {i}) + {i};
    }
  }

  ghost predicate LeadsBoth(ps: Params, n: nat, g: System, steps: seq<Step>, h: System) {
    Possible(ps, g, steps) && CalmSteps(ps, g, steps, n) && End(ps, g, steps) == h
  }

  ghost predicate MayStep(ps: Params, n: nat, g: System, p: Step) {
    CanStep(g, p) && CalmStep(ps, g, p, n)
  }

  lemma OneMoreStep(ps: Params, n: nat, g: System, p: Step, rest: seq<Step>, h: System)
    requires MayStep(ps, n, g, p) && LeadsBoth(ps, n, After(ps, g, p), rest, h)
    ensures LeadsBoth(ps, n, g, [p] + rest, h)
  {
    assert ([p] + rest)[1..] == rest;
  }

  /** A step of the story stage keeps the e-mail stage untouched. */
  lemma StoryOnly(ps: Params, g: System, l: Label, key: int)
    requires Untouched(g) && Enabled(g.story, l) && (l.Submit? ==> l.job.retryCounts == 0) && key !in g.email.st.rows
    ensures CanStep(g, StoryStep(l, key)) && Untouched(After(ps, g, StoryStep(l, key)))
  {
    OutboxChange(ps.Story(), g.story, l);
  }

  ghost predicate StartsAtZero(ls: seq<Label>) {
    forall l :: l in ls && l.Submit? ==> l.job.retryCounts == 0
  }

  lemma {:induction false} SubmitsAreAdded(c: Config, s: State, ls: seq<Label>)
    requires Legal(c, s, ls)
    ensures forall job :: job in s.h.added ==> job in Run(c, s, ls).h.added
    ensures forall l :: l in ls && l.Submit? ==> l.job in Run(c, s, ls).h.added
    decreases |ls|
  {
    if ls != [] {
      AddedChange(c, s, ls[0]);
      SubmitsAreAdded(c, Next(c, s, ls[0]), ls[1..]);
    }
  }

  // ----- and all e-mails fail

  ghost predicate OpenMail(g: System, i: nat) {
    T.Open(g.email, g.story.st.outbox, i)
  }

  /** E-mail job i is delivered to a fresh worker. */
  lemma MailRead(ps: Params, n: nat, g: System, i: nat) returns (a: System, b: System)
    requires OpenMail(g, i) && i < |g.story.st.outbox|
    ensures MayStep(ps, n, g, EmailStep(Spawn(i + 1))) && a == After(ps, g, EmailStep(Spawn(i + 1)))
    ensures MayStep(ps, n, a, EmailStep(Label.Read(i + 1, Done))) && b == After(ps, a, EmailStep(Label.Read(i + 1, Done)))
    ensures b.story == g.story && Succeeding(b.email, i + 1, i, Running(0)) && b.email.h == g.email.h
    ensures b.email.st.stream == g.email.st.stream.Deliver(i) && b.email.workers.Keys == g.email.workers.Keys + {i + 1}
  {
    NextMessage(g.email.st.stream);
    a := After(ps, g, EmailStep(Spawn(i + 1)));
    b := After(ps, a, EmailStep(Label.Read(i + 1, Done)));
  }

  /** Its only call fails. */
  lemma MailRefused(ps: Params, n: nat, g: System, w: nat, i: nat) returns (h: System)
    requires Succeeding(g.email, w, i, Running(0))
    ensures MayStep(ps, n, g, EmailStep(Work(w, Refused, 0, 0))) && h == After(ps, g, EmailStep(Work(w, Refused, 0, 0)))
    ensures h.story == g.story && h.email.st.stream == g.email.st.stream
    ensures h.email.h.failed == g.email.h.failed + {i} && h.email.workers.Keys == g.email.workers.Keys
  {
    h := After(ps, g, EmailStep(Work(w, Refused, 0, 0)));
  }

  lemma {:induction false} MailsFail(ps: Params, n: nat, g: System, i: nat) returns (steps: seq<Step>, h: System)
    requires OpenMail(g, i)
    ensures LeadsBoth(ps, n, g, steps, h) && h.story == g.story && OpenMail(h, |h.story.st.outbox|)
    decreases |g.story.st.outbox| - i
  {
    if i == |g.story.st.outbox| {
      steps, h := [], g;
    } else {
      var a, b := MailRead(ps, n, g, i);
      var d := MailRefused(ps, n, b, i + 1, i);
      MailFailed(g, d, i);
      var rest;
      rest, h := MailsFail(ps, n, d, i + 1);
      var p0, p1, p2 := EmailStep(Spawn(i + 1)), EmailStep(Label.Read(i + 1, Done)), EmailStep(Work(i + 1, Refused, 0, 0));
      OneMoreStep(ps, n, b, p2, rest, h);
      OneMoreStep(ps, n, a, p1, [p2] + rest, h);
      OneMoreStep(ps, n, g, p0, [p1] + ([p2] + rest), h);
      steps := [p0] + ([p1] + ([p2] + rest));
    }
  }

  lemma MailFailed(g: System, h: System, i: nat)
    requires OpenMail(g, i) && i < |g.story.st.outbox| && h.story == g.story
    requires h.email.st.stream == g.email.st.stream.Deliver(i) && h.email.h.failed == g.email.h.failed + {i}
    requires h.email.workers.Keys == g.email.workers.Keys + {i + 1}
    ensures OpenMail(h, i + 1)
  {
    assert T.UpTo(i + 1) == T.UpTo(i) + {i};
  }

  /** A run of the story stage, and then the failing e-mails. */
  lemma {:induction false} LiftThenFail(ps: Params, n: nat, g: System, ls: seq<Label>) returns (steps: seq<Step>, h: System)
    requires Untouched(g) && Legal(ps.Story(), g.story, ls) && WithinRun(ps.Story(), g.story, ls, n, NONE) && StartsAtZero(ls)
    ensures LeadsBoth(ps, n, g, steps, h) && h.story == Run(ps.Story(), g.story, ls) && OpenMail(h, |h.story.st.outbox|)
    decreases |ls|
  {
    if ls == [] {
      steps, h := MailsFail(ps, n, g, 0);
    } else {
      var key := LargerThanAll(g.email.st.rows.Keys);
      var p := StoryStep(ls[0], key);
      StoryOnly(ps, g, ls[0], key);
      var rest;
      rest, h := LiftThenFail(ps, n, After(ps, g, p), ls[1..]);
      OneMoreStep(ps, n, g, p, rest, h);
      steps := [p] + rest;
    }
  }

  // ----- counting

  lemma CountStory(s: State, log: seq<Job>, i: nat, x: Job)
    requires Told(s, log, i, |log|) && forall j :: 0 <= j < |log| ==> Ident(log[j]) == Ident(x)
    ensures |Executions(s, x)| >= |log|
  {
    T.UpToSize(|log|);
    forall j | j in T.UpTo(|log|)
      ensures j in Executions(s, x)
    {
      assert Ident(s.st.stream.log[j]) == Ident(x);
    }
    SubsetSize(T.UpTo(|log|), Executions(s, x));
  }

  /** How many copies stand at the cap. */
  lemma LastCopies(c: Config, n: nat)
    ensures Geo(n, Cap(c)) - T.Inner(c, n) == if n == 0 then 1 else Pow(n, Cap(c))
  {
    if n == 0 {
      T.NoSchedulers(Cap(c));
    }
  }

  /** Some run with n schedulers per stage, and none of the three faults, executes a job as often
      as the bound allows. */
  lemma BothBudgetsReached(ps: Params, n: nat, x: Job) returns (steps: seq<Step>)
    requires x.retryCounts == 0
    ensures Possible(ps, START, steps) && CalmSteps(ps, START, steps, n)
    ensures
      var g, cap := End(ps, START, steps), Cap(ps.Story());
      x in g.story.h.added && |Executions(g.story, x)| + |Executions(g.email, x)| >= Most(n, cap)
  {
    var c := ps.Story();
    var t, log := StoryTold(c, n, x);
    var ls :| T.Leads(c, n, NONE, INIT, ls, t);
    SubmitsAreAdded(c, INIT, ls);
    var h;
    steps, h := LiftThenFail(ps, n, START, ls);
    LastCopies(c, n);
    CountStory(h.story, log, T.Inner(c, n), x);
    T.AllExecuted(h.email, h.story.st.outbox, x);
  }
}
