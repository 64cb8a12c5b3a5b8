/**
  The multiplicities are reached, for every number of schedulers and every configuration: some
  run of the code's own steps, without a fault of the schedulers, grows the full tree of
  copies, each failed delivery of a job being appended once by every scheduler.
*/
module Tightness {
  import opened Jobs
  import opened Sets
  import opened Backoff
  import opened Worker
  import opened Stage
  import opened Records
  import opened Multiplicity
  import UniqueCopy

  /** A run with at most n schedulers and these faults that submits no job twice. */
  ghost predicate Leads(c: Config, n: nat, f: Faults, s: State, ls: seq<Label>, t: State) {
    Legal(c, s, ls) && WithinRun(c, s, ls, n, f) && Run(c, s, ls) == t
  }

  ghost predicate Reaches(c: Config, n: nat, f: Faults, s: State, t: State) {
    exists ls :: Leads(c, n, f, s, ls, t)
  }

  lemma OneStep(c: Config, n: nat, f: Faults, s: State, l: Label)
    requires Enabled(s, l) && Within(c, s, l, n, f) && Fresh(s, l)
    ensures Reaches(c, n, f, s, Next(c, s, l))
  {
    var t := Next(c, s, l);
    assert [l][0] == l && [l][1..] == [];
    assert Legal(c, t, []) && Run(c, t, []) == t && WithinRun(c, t, [], n, f);
    assert Legal(c, s, [l]);
    assert Run(c, s, [l]) == t && WithinRun(c, s, [l], n, f);
    assert Leads(c, n, f, s, [l], t);
  }

  lemma Stay(c: Config, n: nat, f: Faults, s: State)
    ensures Reaches(c, n, f, s, s)
  {
    assert Legal(c, s, []);
    assert Leads(c, n, f, s, [], s);
  }

  lemma {:induction false} Append(c: Config, n: nat, f: Faults, s: State, first: seq<Label>, t: State, second: seq<Label>, u: State)
    requires Leads(c, n, f, s, first, t) && Leads(c, n, f, t, second, u)
    ensures Leads(c, n, f, s, first + second, u)
    decreases |first|
  {
    if first == [] {
      assert first + second == second;
    } else {
      Append(c, n, f, Next(c, s, first[0]), first[1..], t, second, u);
      assert (first + second)[1..] == first[1..] + second;
    }
  }

  lemma Then(c: Config, n: nat, f: Faults, s: State, t: State, u: State)
    requires Reaches(c, n, f, s, t) && Reaches(c, n, f, t, u)
    ensures Reaches(c, n, f, s, u)
  {
    var first :| Leads(c, n, f, s, first, t);
    var second :| Leads(c, n, f, t, second, u);
    Append(c, n, f, s, first, t, second, u);
  }

  // ----- single steps

  lemma SpawnNext(c: Config, n: nat, s: State, w: nat) returns (t: State)
    requires w !in s.workers
    ensures Reaches(c, n, NONE, s, t) && t == s.(workers := s.workers[w := Idle])
  {
    var l := Spawn(w);
    t := Next(c, s, l);
    OneStep(c, n, NONE, s, l);
  }

  /** A worker at rest is handed the next message. */
  lemma ReadNext(c: Config, n: nat, s: State, w: nat) returns (t: State)
    requires w in s.workers && s.workers[w] == Idle && s.st.stream.cursor < |s.st.stream.log|
    requires forall id :: id in s.st.stream.deleted ==> id < s.st.stream.cursor
    ensures Reaches(c, n, NONE, s, t)
    ensures var i := s.st.stream.cursor;
      t == s.(st := s.st.(stream := s.st.stream.Deliver(i)), workers := s.workers[w := At(Running(0), i, s.st.stream.log[i])])
  {
    NextMessage(s.st.stream);
    var l := Label.Read(w, Done);
    t := Next(c, s, l);
    OneStep(c, n, NONE, s, l);
  }

  /** The first call of the execution fails. */
  lemma Refuse(c: Config, n: nat, s: State, w: nat) returns (t: State)
    requires w in s.workers && s.workers[w].At? && s.workers[w].phase == Running(0)
    ensures Reaches(c, n, NONE, s, t)
    ensures
      var pc := s.workers[w];
      var next := if pc.job.retryCounts == c.maxRetry then DlqAdd else RetryAdd;
      t == s.(workers := s.workers[w := At(next, pc.id, pc.job)], h := s.h.(failed := s.h.failed + {pc.id}))
  {
    var l := Work(w, Refused, 0, 0);
    t := Next(c, s, l);
    OneStep(c, n, NONE, s, l);
  }

  // ----- the tree of copies

  function Level(x: Job, k: int): Job {
    x.(retryCounts := k)
  }

  ghost function UpTo(m: nat): (r: set<nat>)
    ensures forall i: nat :: i in r <==> i < m
  {
    if m == 0 then {} else UpTo(m - 1) + {m - 1}
  }

  /** Message i has the children n * i + 1, ..., n * i + n; the root is message 0. */
  function Parent(n: nat, j: nat): (i: nat)
    requires 1 <= n && 1 <= j
    ensures i < j
  {
    Quotients(j - 1, n);
    (j - 1) / n
  }

  /** The retry count of the j-th message. */
  function Depth(n: nat, j: nat): nat {
    if j == 0 || n == 0 then 0 else 1 + Depth(n, Parent(n, j))
  }

  lemma Quotients(m: nat, n: nat)
    requires 1 <= n
    ensures n * (m / n) <= m < n * (m / n) + n && 0 <= m / n <= m
  {
    var d := m / n;
    assert n * d == d + (n - 1) * d;
  }

  lemma Gap(n: nat, q: nat, d: nat)
    ensures q < d ==> n * q + n <= n * d
  {
    if q < d {
      Times(n, q, d);
    }
  }

  lemma ParentOf(n: nat, i: nat, j: nat)
    requires 1 <= n && n * i + 1 <= j <= n * i + n
    ensures Parent(n, j) == i
  {
    Quotients(j - 1, n);
    Gap(n, i, Parent(n, j));
    Gap(n, Parent(n, j), i);
  }

  lemma ChildDepth(n: nat, i: nat, j: nat)
    requires 1 <= n && n * i + 1 <= j <= n * i + n
    ensures Depth(n, j) == Depth(n, i) + 1
  {
    ParentOf(n, i, j);
  }

  /** 1 + n * (1 + ... + n^k) == 1 + ... + n^(k+1) */
  lemma {:induction false} GeoGrows(n: nat, k: nat)
    ensures Geo(n, k + 1) == 1 + n * Geo(n, k)
  {
    if k == 0 {
      assert Pow(n, 1) == n * Pow(n, 0) == n;
      assert Geo(n, 1) == Geo(n, 0) + Pow(n, 1);
    } else {
      GeoGrows(n, k - 1);
      assert Pow(n, k + 1) == n * Pow(n, k);
      assert n * Geo(n, k) == n * (Geo(n, k - 1) + Pow(n, k)) == n * Geo(n, k - 1) + n * Pow(n, k);
    }
  }

  lemma EarlyParent(n: nat, j: nat, k: nat)
    requires 1 <= n && 1 <= j < Geo(n, k + 1)
    ensures Parent(n, j) < Geo(n, k)
  {
    GeoGrows(n, k);
    Quotients(j - 1, n);
    Gap(n, Geo(n, k), Parent(n, j));
  }

  /** The messages that come first have the low retry counts. */
  lemma {:induction false} EarlyDepth(n: nat, j: nat, k: nat)
    requires 1 <= n && j < Geo(n, k)
    ensures Depth(n, j) <= k
    decreases k
  {
    if j > 0 && k > 0 {
      EarlyParent(n, j, k - 1);
      EarlyDepth(n, Parent(n, j), k - 1);
    }
  }

  /** The first `size` messages of the tree, and n schedulers at rest. */
  ghost predicate Tree(s: State, x: Job, n: nat, size: nat) {
    && s.h.added == [x] && |s.st.stream.log| == size
    && (forall j :: 0 <= j < size ==> s.st.stream.log[j] == Level(x, Depth(n, j)))
    && (forall id :: id in s.st.stream.deleted ==> id < s.st.stream.cursor)
    && s.st.stream.cursor <= size
  }

  ghost predicate AllRest(s: State, n: nat) {
    && (forall k :: k in s.scheds <==> 0 <= k < n)
    && (forall k :: k in s.scheds ==> s.scheds[k] == Resting)
  }

  /** Messages before i were executed and failed; message i is next. */
  ghost predicate Ready(s: State, x: Job, n: nat, i: nat, size: nat) {
    && Tree(s, x, n, size) && AllRest(s, n) && s.st.stream.cursor == i
    && s.workers == map[0 := Idle] && s.st.retry == map[] && s.h.failed == UpTo(i)
  }

  /** Message i has failed too and the worker is about to make this call. */
  ghost predicate Failing(s: State, x: Job, n: nat, i: nat, size: nat, phase: Phase) {
    && i < size && Tree(s, x, n, size) && AllRest(s, n) && s.st.stream.cursor == i + 1
    && s.workers == map[0 := At(phase, i, Level(x, Depth(n, i)))]
    && s.h.failed == UpTo(i + 1)
  }

  lemma Fail(c: Config, s: State, x: Job, n: nat, i: nat, size: nat) returns (t: State)
    requires Ready(s, x, n, i, size) && i < size
    ensures Reaches(c, n, NONE, s, t) && t.st.retry == map[]
    ensures Failing(t, x, n, i, size, if Depth(n, i) == c.maxRetry then DlqAdd else RetryAdd)
  {
    var r := ReadNext(c, n, s, 0);
    t := Refuse(c, n, r, 0);
    Then(c, n, NONE, s, r, t);
    assert UpTo(i + 1) == UpTo(i) + {i};
  }

  /** A call of the dead-letter branch that succeeds. */
  lemma DlqCall(c: Config, s: State, x: Job, n: nat, i: nat, size: nat, phase: Phase) returns (t: State)
    requires Failing(s, x, n, i, size, phase) && InDlqBranch(phase) && s.st.retry == map[] && !c.exclusiveDlq
    ensures Reaches(c, n, NONE, s, t) && t.st.retry == map[]
    ensures Failing(t, x, n, i, size, Advance(c, phase, Level(x, Depth(n, i)), true).value)
  {
    var l := Work(0, Done, 0, 0);
    t := Next(c, s, l);
    OneStep(c, n, NONE, s, l);
  }

  /** As written, the dead-lettered job goes on into the retry branch. */
  lemma FallThrough(c: Config, s: State, x: Job, n: nat, i: nat, size: nat) returns (t: State)
    requires Failing(s, x, n, i, size, DlqAdd) && s.st.retry == map[] && !c.exclusiveDlq
    ensures Reaches(c, n, NONE, s, t) && Failing(t, x, n, i, size, RetryAdd) && t.st.retry == map[]
  {
    var a := DlqCall(c, s, x, n, i, size, DlqAdd);
    var b := DlqCall(c, a, x, n, i, size, DlqAck);
    var d := DlqCall(c, b, x, n, i, size, DlqDelete);
    t := DlqCall(c, d, x, n, i, size, DlqStatus);
    Then(c, n, NONE, s, a, b);
    Then(c, n, NONE, s, b, d);
    Then(c, n, NONE, s, d, t);
  }

  /** The copy is the one entry of the retry set, due at second 300 at the latest. */
  ghost predicate Waiting(s: State, copy: Job) {
    copy in s.st.retry && s.st.retry.Keys == {copy} && 0 <= s.st.retry[copy] <= 300
  }

  lemma Schedule(c: Config, s: State, x: Job, n: nat, i: nat, size: nat) returns (t: State)
    requires Failing(s, x, n, i, size, RetryAdd) && s.st.retry == map[] && Depth(n, i) < LAST_SAFE_RETRY
    ensures Reaches(c, n, NONE, s, t) && Failing(t, x, n, i, size, RetryAck) && Waiting(t, Level(x, Depth(n, i) + 1))
  {
    var l := Work(0, Done, 0, 0);
    t := Next(c, s, l);
    OneStep(c, n, NONE, s, l);
    assert Bump(Level(x, Depth(n, i))) == Level(x, Depth(n, i) + 1);
    ScheduleEffect(c, s.st, s.workers[0]);
    assert t.workers == map[0 := At(RetryAck, i, Level(x, Depth(n, i)))];
  }

  /** ScheduleRetry at second 0, with the least random draw. */
  lemma ScheduleEffect(c: Config, st: Store, pc: PC)
    requires pc.At? && pc.phase.RetryAdd? && 0 <= pc.job.retryCounts < LAST_SAFE_RETRY && st.retry == map[]
    ensures
      var (t, next) := Step(c, st, pc, Done, 0, 0);
      && next == At(RetryAck, pc.id, pc.job)
      && t == st.(retry := t.retry) && t.retry.Keys == {Bump(pc.job)} && 0 <= t.retry[Bump(pc.job)] <= 300
  {
    DelayRange(pc.job.retryCounts + 1, 0);
  }

  /** A call after ScheduleRetry that succeeds. */
  lemma LetGoCall(c: Config, s: State, x: Job, n: nat, i: nat, size: nat, phase: Phase, copy: Job) returns (t: State)
    requires Failing(s, x, n, i, size, phase) && AfterRetryAdd(phase) && Waiting(s, copy)
    ensures Reaches(c, n, NONE, s, t) && Waiting(t, copy)
    ensures !phase.RetryStatus? ==> Failing(t, x, n, i, size, Advance(c, phase, Level(x, Depth(n, i)), true).value)
    ensures phase.RetryStatus? ==> Handled(t, x, n, i, size)
  {
    var l := Work(0, Done, 0, 0);
    t := Next(c, s, l);
    OneStep(c, n, NONE, s, l);
  }

  /** The worker has let go of message i. */
  ghost predicate Handled(s: State, x: Job, n: nat, i: nat, size: nat) {
    && i < size && Tree(s, x, n, size) && AllRest(s, n) && s.st.stream.cursor == i + 1
    && s.workers == map[0 := Idle] && s.h.failed == UpTo(i + 1)
  }

  lemma Acknowledge(c: Config, s: State, x: Job, n: nat, i: nat, size: nat, copy: Job) returns (t: State)
    requires Failing(s, x, n, i, size, RetryAck) && Waiting(s, copy)
    ensures Reaches(c, n, NONE, s, t) && Waiting(t, copy) && Handled(t, x, n, i, size)
  {
    var a := LetGoCall(c, s, x, n, i, size, RetryAck, copy);
    var b := LetGoCall(c, a, x, n, i, size, RetryDelete, copy);
    t := LetGoCall(c, b, x, n, i, size, RetryStatus, copy);
    Then(c, n, NONE, s, a, b);
    Then(c, n, NONE, s, b, t);
  }

  // ----- every scheduler fetches the entry before any of them removes it

  ghost predicate Fetched(s: State, n: nat, k: nat, copy: Job) {
    && (forall j :: j in s.scheds <==> 0 <= j < n)
    && (forall j :: j in s.scheds ==> s.scheds[j] == if j < k then Adding([copy]) else Resting)
  }

  lemma FetchOne(c: Config, s: State, n: nat, k: nat, copy: Job) returns (t: State)
    requires Fetched(s, n, k, copy) && Waiting(s, copy) && k < n
    ensures Reaches(c, n, NONE, s, t) && t == s.(scheds := t.scheds) && Fetched(t, n, k + 1, copy)
  {
    var l := Fetch(k, 300, [copy]);
    assert IsBatch(s.st.retry, 300, [copy]);
    t := Next(c, s, l);
    OneStep(c, n, NONE, s, l);
  }

  lemma {:induction false} FetchAll(c: Config, s: State, n: nat, k: nat, copy: Job) returns (t: State)
    requires AllRest(s, n) && Waiting(s, copy) && k <= n
    ensures Reaches(c, n, NONE, s, t) && t == s.(scheds := t.scheds) && Fetched(t, n, k, copy)
    decreases k
  {
    if k == 0 {
      t := s;
      Stay(c, n, NONE, s);
    } else {
      var a := FetchAll(c, s, n, k - 1, copy);
      t := FetchOne(c, a, n, k - 1, copy);
      Then(c, n, NONE, s, a, t);
    }
  }

  ghost predicate Copied(s: State, t: State, n: nat, k: nat, copy: Job) {
    && t.workers == s.workers && t.h == s.h
    && t.st.stream == s.st.stream.(log := t.st.stream.log)
    && |t.st.stream.log| == |s.st.stream.log| + k && s.st.stream.log <= t.st.stream.log
    && (forall j :: |s.st.stream.log| <= j < |t.st.stream.log| ==> t.st.stream.log[j] == copy)
    && (forall j :: j in t.scheds <==> 0 <= j < n)
    && (forall j :: j in t.scheds ==> t.scheds[j] == if j < k then Resting else Adding([copy]))
    && t.st.retry == if k > 0 then map[] else s.st.retry
  }

  lemma {:induction false} MoveAll(c: Config, s: State, n: nat, k: nat, copy: Job) returns (t: State)
    requires Fetched(s, n, n, copy) && Waiting(s, copy) && k <= n
    ensures Reaches(c, n, NONE, s, t) && Copied(s, t, n, k, copy)
    decreases k
  {
    if k == 0 {
      t := s;
      Stay(c, n, NONE, s);
    } else {
      var a := MoveAll(c, s, n, k - 1, copy);
      t := MoveOne(c, s, a, n, k - 1, copy);
      Then(c, n, NONE, s, a, t);
    }
  }

  lemma MoveOne(c: Config, s: State, a: State, n: nat, k: nat, copy: Job) returns (t: State)
    requires Copied(s, a, n, k, copy) && k < n && (k == 0 ==> a.st.retry.Keys == {copy})
    ensures Reaches(c, n, NONE, a, t) && Copied(s, t, n, k + 1, copy)
  {
    var l := Move(k, Done);
    var b := Next(c, a, l);
    OneStep(c, n, NONE, a, l);
    assert b.scheds[k] == Removing([copy]);
    t := Next(c, b, l);
    OneStep(c, n, NONE, b, l);
    Then(c, n, NONE, a, b, t);
    assert t.st.retry == map[];
  }

  /** A failed execution below the cap leaves its retry waiting. */
  lemma Retries(c: Config, s: State, x: Job, n: nat, i: nat, size: nat) returns (t: State)
    requires Ready(s, x, n, i, size) && i < size && Depth(n, i) < Cap(c)
    ensures Reaches(c, n, NONE, s, t) && Handled(t, x, n, i, size) && Waiting(t, Level(x, Depth(n, i) + 1))
  {
    var a := Fail(c, s, x, n, i, size);
    if Depth(n, i) == c.maxRetry {
      var a' := FallThrough(c, a, x, n, i, size);
      Then(c, n, NONE, s, a, a');
      a := a';
    }
    var b := Schedule(c, a, x, n, i, size);
    t := Acknowledge(c, b, x, n, i, size, Level(x, Depth(n, i) + 1));
    Then(c, n, NONE, s, a, b);
    Then(c, n, NONE, s, b, t);
  }

  /** All n schedulers append the entry. */
  lemma Multiply(c: Config, s: State, x: Job, n: nat, i: nat, size: nat) returns (t: State)
    requires 1 <= n && Handled(s, x, n, i, size) && Waiting(s, Level(x, Depth(n, i) + 1)) && size == 1 + n * i
    ensures Reaches(c, n, NONE, s, t) && Ready(t, x, n, i + 1, size + n)
  {
    var copy := Level(x, Depth(n, i) + 1);
    var a := FetchAll(c, s, n, n, copy);
    t := MoveAll(c, a, n, n, copy);
    Then(c, n, NONE, s, a, t);
    forall j | 0 <= j < size + n
      ensures t.st.stream.log[j] == Level(x, Depth(n, j))
    {
      if j >= size {
        ChildDepth(n, i, j);
      }
    }
  }

  /** One failed execution below the cap gives n more messages. */
  lemma Round(c: Config, s: State, x: Job, n: nat, i: nat, size: nat) returns (t: State)
    requires 1 <= n && Ready(s, x, n, i, size) && i < size == 1 + n * i && Depth(n, i) < Cap(c)
    ensures Reaches(c, n, NONE, s, t) && Ready(t, x, n, i + 1, size + n)
  {
    var a := Retries(c, s, x, n, i, size);
    t := Multiply(c, a, x, n, i, size);
    Then(c, n, NONE, s, a, t);
  }

  lemma {:induction false} SpawnAll(c: Config, n: nat, k: nat) returns (t: State)
    requires k <= n
    ensures Reaches(c, n, NONE, INIT, t) && t == INIT.(scheds := t.scheds) && AllRest(t, k) && |t.scheds| == k
    decreases k
  {
    if k == 0 {
      t := INIT;
      Stay(c, n, NONE, INIT);
    } else {
      var s := SpawnAll(c, n, k - 1);
      var l := SpawnSched(k - 1);
      t := Next(c, s, l);
      OneStep(c, n, NONE, s, l);
      Then(c, n, NONE, INIT, s, t);
      assert t.scheds.Keys == s.scheds.Keys + {k - 1};
    }
  }

  lemma Begin(c: Config, n: nat, x: Job) returns (t: State)
    requires x.retryCounts == 0
    ensures Reaches(c, n, NONE, INIT, t) && Ready(t, x, n, 0, 1)
  {
    var a := SpawnAll(c, n, n);
    var l0, l1 := Spawn(0), Submit(x);
    var b := Next(c, a, l0);
    OneStep(c, n, NONE, a, l0);
    t := Next(c, b, l1);
    OneStep(c, n, NONE, b, l1);
    Then(c, n, NONE, INIT, a, b);
    Then(c, n, NONE, INIT, b, t);
    assert Level(x, 0) == x;
  }

  /** How many messages stand below the cap. */
  function Inner(c: Config, n: nat): nat {
    if Cap(c) == 0 || n == 0 then 0 else Geo(n, Cap(c) - 1)
  }

  lemma Sizes(n: nat, i: nat)
    requires 1 <= n
    ensures i < 1 + n * i && 1 + n * i + n == 1 + n * (i + 1)
  {
    assert n * i == i + (n - 1) * i;
  }

  /** How many messages there are when the first i of the tree have failed. */
  function Size(n: nat, i: nat): nat {
    1 + n * i
  }

  lemma {:induction false} NoSchedulers(k: nat)
    ensures Geo(0, k) == 1
  {
    if k > 0 {
      NoSchedulers(k - 1);
      assert Pow(0, k) == 0;
    }
  }

  lemma TreeSize(c: Config, n: nat)
    ensures Size(n, Inner(c, n)) == Geo(n, Cap(c)) && Inner(c, n) <= Geo(n, Cap(c))
  {
    if n == 0 {
      NoSchedulers(Cap(c));
    } else if Cap(c) > 0 {
      GeoGrows(n, Cap(c) - 1);
      assert n * Inner(c, n) == Inner(c, n) + (n - 1) * Inner(c, n);
    }
  }

  ghost predicate Grown(s: State, x: Job, n: nat, i: nat) {
    Ready(s, x, n, i, Size(n, i))
  }

  lemma GrowRound(c: Config, s: State, x: Job, n: nat, i: nat) returns (t: State)
    requires i < Inner(c, n) && Grown(s, x, n, i)
    ensures Reaches(c, n, NONE, s, t) && Grown(t, x, n, i + 1)
  {
    EarlyDepth(n, i, Cap(c) - 1);
    Sizes(n, i);
    t := Round(c, s, x, n, i, Size(n, i));
  }

  lemma {:induction false} GrowOn(c: Config, n: nat, s: State, x: Job, i: nat, end: nat) returns (t: State)
    requires i <= end <= Inner(c, n) && Grown(s, x, n, i)
    ensures Reaches(c, n, NONE, s, t) && Grown(t, x, n, end)
    decreases end - i
  {
    if i == end {
      t := s;
      Stay(c, n, NONE, s);
    } else {
      var a := GrowRound(c, s, x, n, i);
      t := GrowOn(c, n, a, x, i + 1, end);
      Then(c, n, NONE, s, a, t);
    }
  }

  /** All messages below the cap have failed. */
  lemma Grow(c: Config, n: nat, x: Job) returns (t: State)
    requires x.retryCounts == 0
    ensures Reaches(c, n, NONE, INIT, t) && Ready(t, x, n, Inner(c, n), Geo(n, Cap(c)))
  {
    var s := Begin(c, n, x);
    assert Size(n, 0) == 1;
    t := GrowOn(c, n, s, x, 0, Inner(c, n));
    Then(c, n, NONE, INIT, s, t);
    TreeSize(c, n);
  }

  /** Of these messages those before i were executed and failed, whatever their workers do now. */
  ghost predicate Open(s: State, log: seq<Job>, i: nat) {
    && s.st.stream.log == log && s.st.stream.cursor == i <= |log| && s.h.failed == UpTo(i)
    && (forall id :: id in s.st.stream.deleted ==> id < i)
    && forall w :: w in s.workers ==> w <= i
  }

  /** One more message is delivered to a fresh worker and fails. */
  lemma Leaf(c: Config, n: nat, s: State, log: seq<Job>, i: nat) returns (t: State)
    requires Open(s, log, i) && i < |log|
    ensures Reaches(c, n, NONE, s, t) && Open(t, log, i + 1) && t.h.added == s.h.added
  {
    var a := SpawnNext(c, n, s, i + 1);
    var b := ReadNext(c, n, a, i + 1);
    t := Refuse(c, n, b, i + 1);
    Then(c, n, NONE, s, a, b);
    Then(c, n, NONE, s, b, t);
    assert UpTo(i + 1) == UpTo(i) + {i};
  }

  /** All that is left is delivered and fails. */
  lemma {:induction false} Leaves(c: Config, n: nat, s: State, log: seq<Job>, i: nat) returns (t: State)
    requires Open(s, log, i)
    ensures Reaches(c, n, NONE, s, t) && Open(t, log, |log|) && t.h.added == s.h.added
    decreases |log| - i
  {
    if i == |log| {
      t := s;
      Stay(c, n, NONE, s);
    } else {
      var a := Leaf(c, n, s, log, i);
      t := Leaves(c, n, a, log, i + 1);
      Then(c, n, NONE, s, a, t);
    }
  }

  lemma {:induction false} UpToSize(m: nat)
    ensures |UpTo(m)| == m
  {
    if m > 0 {
      UpToSize(m - 1);
      assert UpTo(m) == UpTo(m - 1) + {m - 1};
    }
  }

  /** If all messages are copies of the job, and all failed, that many executions ended. */
  lemma AllExecuted(t: State, log: seq<Job>, x: Job)
    requires Open(t, log, |log|) && forall j :: 0 <= j < |log| ==> Ident(log[j]) == Ident(x)
    ensures |Executions(t, x)| >= |log|
  {
    UpToSize(|log|);
    forall j | j in UpTo(|log|)
      ensures j in Executions(t, x)
    {
      assert Ident(t.st.stream.log[j]) == Ident(x);
    }
    SubsetSize(UpTo(|log|), Executions(t, x));
  }

  /** Some run with n schedulers, no fault among them, executes the job 1 + n + ... + n^cap times. */
  lemma BudgetIsReached(c: Config, n: nat, x: Job) returns (t: State)
    requires x.retryCounts == 0
    ensures Reaches(c, n, NONE, INIT, t) && x in t.h.added && |Executions(t, x)| >= Geo(n, Cap(c))
  {
    TreeSize(c, n);
    var s := Grow(c, n, x);
    t := Leaves(c, n, s, s.st.stream.log, Inner(c, n));
    Then(c, n, NONE, INIT, s, t);
    AllExecuted(t, s.st.stream.log, x);
  }

  lemma {:induction false} OneScheduler(k: nat)
    ensures Geo(1, k) == k + 1 && Pow(1, k) == 1
  {
    if k > 0 {
      OneScheduler(k - 1);
    }
  }

  lemma {:induction false} SeveralSchedulers(n: nat, k: nat)
    requires 2 <= n && 1 <= k
    ensures Geo(n, k) > k + 1
  {
    GeoGrows(n, k - 1);
    if k > 1 {
      SeveralSchedulers(n, k - 1);
    }
    Times(2, 1, Geo(n, k - 1));
    assert n * Geo(n, k - 1) == 2 * Geo(n, k - 1) + (n - 2) * Geo(n, k - 1);
  }

  /** Two schedulers that fetch one retry before either removes it deliver it twice. */
  lemma DeliveredTwice(c: Config, n: nat, x: Job) returns (t: State)
    requires n >= 2 && Cap(c) > 0 && x.retryCounts == 0
    ensures Reaches(c, n, NONE, INIT, t) && !UniqueCopy.DeliveredOnce(t)
  {
    EarlyDepth(n, 0, 0);
    var s := Begin(c, n, x);
    var a := Round(c, s, x, n, 0, 1);
    t := Leaves(c, n, a, a.st.stream.log, 1);
    Then(c, n, NONE, INIT, s, a);
    Then(c, n, NONE, INIT, a, t);
    ChildDepth(n, 0, 1);
    ChildDepth(n, 0, 2);
    assert t.st.stream.log[1] == t.st.stream.log[2];
  }
}
