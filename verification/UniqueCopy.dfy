/**
  One live copy at a time: when every re-enqueue is atomic and every submission brings a new
  job, a job is never at two places at once, each of its retry counts is delivered at most
  once, and so the number of its executions is bounded. Failing calls, lost replies, crashes
  and the fall-through after a dead letter do not change that.
*/
module UniqueCopy {
  import opened Jobs
  import opened Worker
  import opened Stage
  import opened Records

  /** Where a job waits for, or is in, its next execution. */
  datatype Place = Unread(id: nat) | Held(w: nat) | Parked(job: Job)

  /** A worker owns its job until it is parked again, or done with. */
  predicate Owns(pc: PC) {
    pc.At? && (pc.phase.Running? || InDlqBranch(pc.phase) || pc.phase.RetryAdd?)
  }

  ghost predicate Live(s: State, p: Place) {
    match p
    case Unread(id) => s.st.stream.Has(id) && s.st.stream.cursor <= id
    case Held(w) => w in s.workers && Owns(s.workers[w])
    case Parked(job) => job in s.st.retry
  }

  function JobAt(s: State, p: Place): Job
    requires Live(s, p)
  {
    match p
    case Unread(id) => s.st.stream.log[id]
    case Held(w) => s.workers[w].job
    case Parked(job) => job
  }

  ghost predicate OnePlace(s: State) {
    forall p, q :: Live(s, p) && Live(s, q) && Ident(JobAt(s, p)) == Ident(JobAt(s, q)) ==> p == q
  }

  /** Message i was delivered and was a copy of the job. */
  ghost predicate DeliveredOf(s: State, i: nat, job: Job) {
    i < s.st.stream.cursor <= |s.st.stream.log| && Ident(s.st.stream.log[i]) == Ident(job)
  }

  ghost predicate Above(s: State, p: Place, i: nat)
    requires Live(s, p) && i < |s.st.stream.log|
  {
    || s.st.stream.log[i].retryCounts < JobAt(s, p).retryCounts
    || (p.Held? && s.workers[p.w].id == i)
  }

  /** A live copy stands above everything delivered for its job, itself excepted. */
  ghost predicate AboveDelivered(s: State) {
    forall p, i: nat :: Live(s, p) && DeliveredOf(s, i, JobAt(s, p)) ==> Above(s, p, i)
  }

  /** No copy of a job is delivered twice at the same retry count. */
  ghost predicate DeliveredOnce(s: State) {
    forall i, j :: 0 <= i < j < s.st.stream.cursor <= |s.st.stream.log| ==> s.st.stream.log[i] != s.st.stream.log[j]
  }

  /** A successful execution is the job's last delivery. */
  ghost predicate DoneIsLast(s: State) {
    forall id :: id in s.h.done && id < |s.st.stream.log| ==>
      && (forall p :: Live(s, p) ==> Ident(JobAt(s, p)) != Ident(s.st.stream.log[id]))
      && (forall i: nat :: DeliveredOf(s, i, s.st.stream.log[id]) ==>
            s.st.stream.log[i].retryCounts <= s.st.stream.log[id].retryCounts)
  }

  ghost predicate AddedOnce(s: State) {
    forall i, j :: 0 <= i < j < |s.h.added| ==> Ident(s.h.added[i]) != Ident(s.h.added[j])
  }

  ghost predicate Inv(c: Config, s: State) {
    && Records.Inv(c, s)
    && (forall k :: k in s.scheds ==> s.scheds[k] == Resting)
    && OnePlace(s) && AboveDelivered(s) && DeliveredOnce(s) && DoneIsLast(s) && AddedOnce(s)
  }

  /** Re-enqueueing happens in atomic moves only, and every submission is of a new job. */
  ghost predicate Tame(c: Config, s: State, l: Label) {
    && SubmitsWithin(c, l)
    && !l.Fetch?
    && (l.Submit? ==> forall job :: job in s.h.added ==> Ident(job) != Ident(l.job))
  }

  // ----- every live place of the next state comes from one of this state

  function Origin(s: State, l: Label, p: Place): Place {
    if l.Read? && l.o.Ok() && p == Held(l.w) then Unread(s.st.stream.cursor)
    else if l.Work? && l.w in s.workers && s.workers[l.w].At? && s.workers[l.w].phase.RetryAdd?
      && p == Parked(Bump(s.workers[l.w].job)) then Held(l.w)
    else if l.MoveAtomic? && p == Unread(|s.st.stream.log|) then Parked(l.job)
    else p
  }

  ghost predicate ComesFrom(s: State, t: State, p: Place, o: Place)
    requires Live(t, p)
  {
    && Live(s, o)
    && Ident(JobAt(s, o)) == Ident(JobAt(t, p))
    && JobAt(s, o).retryCounts <= JobAt(t, p).retryCounts
    && (o.Held? && p != o ==> JobAt(s, o).retryCounts < JobAt(t, p).retryCounts)
  }

  lemma OriginRead(c: Config, s: State, l: Label, p: Place)
    requires Inv(c, s) && Enabled(s, l) && l.Read? && Live(Next(c, s, l), p)
    ensures ComesFrom(s, Next(c, s, l), p, Origin(s, l, p))
  {
    NextMessage(s.st.stream);
  }

  lemma OriginWork(c: Config, s: State, l: Label, p: Place)
    requires Shape(s) && Enabled(s, l) && l.Work? && Live(Next(c, s, l), p)
    ensures ComesFrom(s, Next(c, s, l), p, Origin(s, l, p))
  {
    WorkSummary(c, s, l);
    match p
    case Held(w) => OriginHeld(c, s, l, w);
    case Parked(job) => OriginParked(c, s, l, job);
    case Unread(_) =>
  }

  /** A worker that owns its job after its call owned it before. */
  lemma OriginHeld(c: Config, s: State, l: Label, w: nat)
    requires Enabled(s, l) && l.Work? && Live(Next(c, s, l), Held(w))
    ensures ComesFrom(s, Next(c, s, l), Held(w), Held(w))
  {
    WorkSummary(c, s, l);
  }

  lemma OriginParked(c: Config, s: State, l: Label, job: Job)
    requires Enabled(s, l) && l.Work? && Live(Next(c, s, l), Parked(job))
    ensures ComesFrom(s, Next(c, s, l), Parked(job), Origin(s, l, Parked(job)))
  {
    WorkSummary(c, s, l);
  }

  lemma OriginQuiet(c: Config, s: State, l: Label, p: Place)
    requires Inv(c, s) && Enabled(s, l) && Quiet(l) && !l.Submit? && !l.Fetch? && Live(Next(c, s, l), p)
    ensures ComesFrom(s, Next(c, s, l), p, Origin(s, l, p))
  {
    QuietSummary(c, s, l);
  }

  lemma OriginOf(c: Config, s: State, l: Label, p: Place)
    requires Inv(c, s) && Enabled(s, l) && Tame(c, s, l) && !l.Submit? && Live(Next(c, s, l), p)
    ensures ComesFrom(s, Next(c, s, l), p, Origin(s, l, p))
  {
    if l.Read? {
      OriginRead(c, s, l, p);
    } else if l.Work? {
      OriginWork(c, s, l, p);
    } else {
      OriginQuiet(c, s, l, p);
    }
  }

  /** After the call to ScheduleRetry the job is no longer the worker's. */
  lemma RetryAddLetsGo(c: Config, s: State, l: Label)
    requires Enabled(s, l) && l.Work? && s.workers[l.w].phase.RetryAdd?
    ensures !Live(Next(c, s, l), Held(l.w))
  {
  }

  /** Two places never share an origin: the place left behind is no longer live. */
  lemma OriginInjective(c: Config, s: State, l: Label, p: Place, q: Place)
    requires Inv(c, s) && Enabled(s, l) && Tame(c, s, l) && !l.Submit?
    requires Live(Next(c, s, l), p) && Live(Next(c, s, l), q) && Origin(s, l, p) == Origin(s, l, q)
    ensures p == q
  {
    if l.Read? {
      NextMessage(s.st.stream);
    } else if l.Work? && s.workers[l.w].phase.RetryAdd? {
      RetryAddLetsGo(c, s, l);
    }
  }

  lemma OnePlaceStep(c: Config, s: State, l: Label)
    requires Inv(c, s) && Enabled(s, l) && Tame(c, s, l) && !l.Submit?
    ensures OnePlace(Next(c, s, l))
  {
    var t := Next(c, s, l);
    forall p, q | Live(t, p) && Live(t, q) && Ident(JobAt(t, p)) == Ident(JobAt(t, q))
      ensures p == q
    {
      OriginOf(c, s, l, p);
      OriginOf(c, s, l, q);
      OriginInjective(c, s, l, p, q);
    }
  }

  /** A worker that still owns its job still holds the same message. */
  lemma SameHolder(c: Config, s: State, l: Label, w: nat)
    requires Inv(c, s) && Enabled(s, l) && Live(Next(c, s, l), Held(w)) && Origin(s, l, Held(w)) == Held(w)
    ensures w in s.workers && s.workers[w].At? && Next(c, s, l).workers[w].id == s.workers[w].id
  {
    if l.Read? {
      NextMessage(s.st.stream);
    } else if l.Work? {
      WorkSummary(c, s, l);
    } else {
      QuietSummary(c, s, l);
    }
  }

  lemma AboveOld(c: Config, s: State, l: Label, p: Place, i: nat)
    requires Inv(c, s) && Enabled(s, l) && Tame(c, s, l) && !l.Submit? && Live(Next(c, s, l), p)
    requires DeliveredOf(s, i, JobAt(Next(c, s, l), p))
    ensures
      var t := Next(c, s, l);
      s.st.stream.log[i].retryCounts < JobAt(t, p).retryCounts || (p.Held? && t.workers[p.w].id == i)
  {
    OriginOf(c, s, l, p);
    var o := Origin(s, l, p);
    assert DeliveredOf(s, i, JobAt(s, o));
    if o.Held? {
      assert HoldsMessage(s, s.workers[o.w]);
      if o == p {
        SameHolder(c, s, l, p.w);
      }
    }
  }

  /** The message delivered by this step is held by its reader, if anybody has it. */
  lemma AboveNew(c: Config, s: State, l: Label, p: Place)
    requires Inv(c, s) && Enabled(s, l) && Tame(c, s, l) && l.Read? && Live(Next(c, s, l), p)
    requires l.o.Applied() && s.st.stream.cursor < |s.st.stream.log|
    requires Ident(s.st.stream.log[s.st.stream.cursor]) == Ident(JobAt(Next(c, s, l), p))
    ensures p.Held? && Next(c, s, l).workers[p.w].id == s.st.stream.cursor
  {
    NextMessage(s.st.stream);
    OriginOf(c, s, l, p);
    assert Live(s, Unread(s.st.stream.cursor));
    assert Origin(s, l, p) == Unread(s.st.stream.cursor);
  }

  /** The log only grows, and only reading moves the cursor, by one. */
  lemma Monotone(c: Config, s: State, l: Label)
    requires Inv(c, s) && Enabled(s, l)
    ensures
      var t := Next(c, s, l);
      && s.st.stream.log <= t.st.stream.log
      && t.st.stream.cursor == (if l.Read? && l.o.Applied() then s.st.stream.cursor + 1 else s.st.stream.cursor)
      && (l.Read? ==> s.st.stream.cursor < |s.st.stream.log|)
  {
    if l.Read? {
      NextMessage(s.st.stream);
    } else if l.Work? {
      WorkSummary(c, s, l);
    } else {
      QuietSummary(c, s, l);
    }
  }

  lemma AboveAny(c: Config, s: State, l: Label, p: Place, i: nat)
    requires Inv(c, s) && Enabled(s, l) && Tame(c, s, l) && !l.Submit? && Live(Next(c, s, l), p)
    requires DeliveredOf(Next(c, s, l), i, JobAt(Next(c, s, l), p))
    ensures Above(Next(c, s, l), p, i)
  {
    DeliveredBefore(c, s, l, JobAt(Next(c, s, l), p), i);
    if i < s.st.stream.cursor {
      AboveOld(c, s, l, p, i);
    } else {
      AboveNew(c, s, l, p);
    }
  }

  /** What is delivered after the step was delivered before, or the step delivered it. */
  lemma DeliveredBefore(c: Config, s: State, l: Label, job: Job, i: nat)
    requires Inv(c, s) && Enabled(s, l) && DeliveredOf(Next(c, s, l), i, job)
    ensures i < |s.st.stream.log| && Next(c, s, l).st.stream.log[i] == s.st.stream.log[i]
    ensures i < s.st.stream.cursor ==> DeliveredOf(s, i, job)
    ensures i >= s.st.stream.cursor ==> i == s.st.stream.cursor && l.Read? && l.o.Applied()
  {
    Monotone(c, s, l);
  }

  lemma AboveDeliveredStep(c: Config, s: State, l: Label)
    requires Inv(c, s) && Enabled(s, l) && Tame(c, s, l) && !l.Submit?
    ensures AboveDelivered(Next(c, s, l))
  {
    forall p, i: nat | Live(Next(c, s, l), p) && DeliveredOf(Next(c, s, l), i, JobAt(Next(c, s, l), p))
      ensures Above(Next(c, s, l), p, i)
    {
      AboveAny(c, s, l, p, i);
    }
  }

  /** The message to be delivered next differs from all delivered ones. */
  lemma NextIsNew(s: State, i: nat)
    requires AboveDelivered(s) && i < s.st.stream.cursor < |s.st.stream.log| && s.st.stream.cursor !in s.st.stream.deleted
    ensures s.st.stream.log[i] != s.st.stream.log[s.st.stream.cursor]
  {
    var next := Unread(s.st.stream.cursor);
    assert Live(s, next);
    if Ident(s.st.stream.log[i]) == Ident(JobAt(s, next)) {
      assert DeliveredOf(s, i, JobAt(s, next)) && Above(s, next, i);
    }
  }

  lemma DeliveredOnceStep(c: Config, s: State, l: Label)
    requires Inv(c, s) && Enabled(s, l) && Tame(c, s, l)
    ensures DeliveredOnce(Next(c, s, l))
  {
    var t := Next(c, s, l);
    Monotone(c, s, l);
    forall i: nat, j: nat | i < j < t.st.stream.cursor <= |t.st.stream.log|
      ensures t.st.stream.log[i] != t.st.stream.log[j]
    {
      if j == s.st.stream.cursor {
        NextIsNew(s, i);
      }
    }
  }

  /** An execution that just succeeded ran the worker's own copy. */
  lemma NewlyDone(c: Config, s: State, l: Label, id: nat)
    requires Inv(c, s) && Enabled(s, l) && id in Next(c, s, l).h.done && id !in s.h.done
    ensures l.Work? && Live(s, Held(l.w)) && s.workers[l.w].id == id < s.st.stream.cursor
    ensures JobAt(s, Held(l.w)) == s.st.stream.log[id]
    ensures !Live(Next(c, s, l), Held(l.w)) && !s.workers[l.w].phase.RetryAdd?
  {
    if l.Work? {
      WorkSummary(c, s, l);
      assert HoldsMessage(s, s.workers[l.w]);
    } else if !l.Read? {
      QuietSummary(c, s, l);
    }
  }

  lemma DoneNoPlace(c: Config, s: State, l: Label, id: nat, p: Place)
    requires Inv(c, s) && Enabled(s, l) && Tame(c, s, l) && !l.Submit?
    requires id in Next(c, s, l).h.done && id < |s.st.stream.log| && Live(Next(c, s, l), p)
    ensures Ident(JobAt(Next(c, s, l), p)) != Ident(s.st.stream.log[id])
  {
    OriginOf(c, s, l, p);
    if id !in s.h.done {
      NewlyDone(c, s, l, id);
    }
  }

  /** The message to be delivered next is not of a job that is done. */
  lemma NextNotDone(c: Config, s: State, l: Label, id: nat)
    requires Inv(c, s) && Enabled(s, l) && l.Read? && id in Next(c, s, l).h.done && id < |s.st.stream.log|
    ensures s.st.stream.cursor < |s.st.stream.log| && Ident(s.st.stream.log[s.st.stream.cursor]) != Ident(s.st.stream.log[id])
  {
    NextMessage(s.st.stream);
    assert Live(s, Unread(s.st.stream.cursor));
  }

  /** What was delivered for a worker's job is at most as high as the job. */
  lemma DoneDelivery(s: State, w: nat, i: nat)
    requires Shape(s) && AboveDelivered(s) && Live(s, Held(w)) && DeliveredOf(s, i, JobAt(s, Held(w)))
    ensures s.st.stream.log[i].retryCounts <= JobAt(s, Held(w)).retryCounts
  {
    assert Above(s, Held(w), i);
    assert HoldsMessage(s, s.workers[w]);
  }

  /** What was delivered before for a job that is done now is no higher. */
  lemma DoneNotBelow(c: Config, s: State, l: Label, id: nat, i: nat)
    requires Inv(c, s) && Enabled(s, l) && id in Next(c, s, l).h.done && id < |s.st.stream.log|
    requires DeliveredOf(s, i, s.st.stream.log[id])
    ensures s.st.stream.log[i].retryCounts <= s.st.stream.log[id].retryCounts
  {
    if id !in s.h.done {
      NewlyDone(c, s, l, id);
      DoneDelivery(s, l.w, i);
    }
  }

  lemma DoneNoLater(c: Config, s: State, l: Label, id: nat, i: nat)
    requires Inv(c, s) && Enabled(s, l) && Tame(c, s, l) && !l.Submit?
    requires id in Next(c, s, l).h.done && id < |s.st.stream.log|
    requires DeliveredOf(Next(c, s, l), i, s.st.stream.log[id])
    ensures i < |s.st.stream.log| && s.st.stream.log[i].retryCounts <= s.st.stream.log[id].retryCounts
  {
    DeliveredBefore(c, s, l, s.st.stream.log[id], i);
    if i >= s.st.stream.cursor {
      NextNotDone(c, s, l, id);
    } else {
      DoneNotBelow(c, s, l, id, i);
    }
  }

  lemma DoneIsLastStep(c: Config, s: State, l: Label)
    requires Inv(c, s) && Enabled(s, l) && Tame(c, s, l) && !l.Submit?
    ensures DoneIsLast(Next(c, s, l))
  {
    var t := Next(c, s, l);
    Monotone(c, s, l);
    forall id | id in t.h.done && id < |t.st.stream.log|
      ensures forall p :: Live(t, p) ==> Ident(JobAt(t, p)) != Ident(t.st.stream.log[id])
      ensures forall i: nat :: DeliveredOf(t, i, t.st.stream.log[id]) ==>
                t.st.stream.log[i].retryCounts <= t.st.stream.log[id].retryCounts
    {
      DoneWasDelivered(c, s, l, id);
      forall p | Live(t, p)
        ensures Ident(JobAt(t, p)) != Ident(t.st.stream.log[id])
      {
        DoneNoPlace(c, s, l, id, p);
      }
      forall i: nat | DeliveredOf(t, i, t.st.stream.log[id])
        ensures t.st.stream.log[i].retryCounts <= t.st.stream.log[id].retryCounts
      {
        DoneNoLater(c, s, l, id, i);
      }
    }
  }

  lemma DoneWasDelivered(c: Config, s: State, l: Label, id: nat)
    requires Inv(c, s) && Enabled(s, l) && id in Next(c, s, l).h.done
    ensures id < |s.st.stream.log|
  {
    if id !in s.h.done {
      NewlyDone(c, s, l, id);
    }
  }

  // ----- a submission

  /** A job nobody added before is nowhere in the stage. */
  lemma NewIsNowhere(c: Config, s: State, job: Job)
    requires Inv(c, s) && forall a :: a in s.h.added ==> Ident(a) != Ident(job)
    ensures forall i :: 0 <= i < |s.st.stream.log| ==> Ident(s.st.stream.log[i]) != Ident(job)
    ensures forall j :: j in s.st.retry ==> Ident(j) != Ident(job)
  {
    forall j | j in s.h.added || j in s.h.scheduled
      ensures Ident(j) != Ident(job)
    {
      var base := CopyExplained(c, s, j);
      assert Ident(j.(retryCounts := base)) == Ident(j);
    }
  }

  /** Only the new message is a new live place. */
  lemma SubmitPlaces(c: Config, s: State, l: Label, p: Place)
    requires Inv(c, s) && Enabled(s, l) && Tame(c, s, l) && l.Submit?
    requires Live(Next(c, s, l), p) && p != Unread(|s.st.stream.log|)
    ensures Live(s, p) && JobAt(s, p) == JobAt(Next(c, s, l), p) && Ident(JobAt(s, p)) != Ident(l.job)
  {
    NewIsNowhere(c, s, l.job);
    if p.Held? {
      assert HoldsMessage(s, s.workers[p.w]);
    }
  }

  lemma SubmitOnePlace(c: Config, s: State, l: Label)
    requires Inv(c, s) && Enabled(s, l) && Tame(c, s, l) && l.Submit?
    ensures OnePlace(Next(c, s, l))
  {
    var t := Next(c, s, l);
    var n := Unread(|s.st.stream.log|);
    forall p, q | Live(t, p) && Live(t, q) && Ident(JobAt(t, p)) == Ident(JobAt(t, q))
      ensures p == q
    {
      if p != n {
        SubmitPlaces(c, s, l, p);
      }
      if q != n {
        SubmitPlaces(c, s, l, q);
      }
    }
  }

  lemma SubmitAbove(c: Config, s: State, l: Label)
    requires Inv(c, s) && Enabled(s, l) && Tame(c, s, l) && l.Submit?
    ensures AboveDelivered(Next(c, s, l))
  {
    var t := Next(c, s, l);
    NewIsNowhere(c, s, l.job);
    forall p, i: nat | Live(t, p) && DeliveredOf(t, i, JobAt(t, p))
      ensures Above(t, p, i)
    {
      assert t.st.stream.log[i] == s.st.stream.log[i];
      if p != Unread(|s.st.stream.log|) {
        SubmitPlaces(c, s, l, p);
        assert DeliveredOf(s, i, JobAt(s, p));
      }
    }
  }

  lemma SubmitDone(c: Config, s: State, l: Label)
    requires Inv(c, s) && Enabled(s, l) && Tame(c, s, l) && l.Submit?
    ensures DoneIsLast(Next(c, s, l)) && AddedOnce(Next(c, s, l))
  {
    var t := Next(c, s, l);
    NewIsNowhere(c, s, l.job);
    forall id | id in t.h.done && id < |t.st.stream.log|
      ensures forall p :: Live(t, p) ==> Ident(JobAt(t, p)) != Ident(t.st.stream.log[id])
      ensures forall i: nat :: DeliveredOf(t, i, t.st.stream.log[id]) ==>
                t.st.stream.log[i].retryCounts <= t.st.stream.log[id].retryCounts
    {
      assert id < |s.st.stream.log| && t.st.stream.log[id] == s.st.stream.log[id];
      forall p | Live(t, p)
        ensures Ident(JobAt(t, p)) != Ident(t.st.stream.log[id])
      {
        if p != Unread(|s.st.stream.log|) {
          SubmitPlaces(c, s, l, p);
        }
      }
      forall i: nat | DeliveredOf(t, i, t.st.stream.log[id])
        ensures t.st.stream.log[i].retryCounts <= t.st.stream.log[id].retryCounts
      {
        assert DeliveredOf(s, i, s.st.stream.log[id]);
      }
    }
  }

  lemma StepKeepsInv(c: Config, s: State, l: Label)
    requires Inv(c, s) && Enabled(s, l) && Tame(c, s, l)
    ensures Inv(c, Next(c, s, l))
  {
    Records.StepKeepsInv(c, s, l);
    DeliveredOnceStep(c, s, l);
    if l.Submit? {
      SubmitOnePlace(c, s, l);
      SubmitAbove(c, s, l);
      SubmitDone(c, s, l);
    } else {
      OnePlaceStep(c, s, l);
      AboveDeliveredStep(c, s, l);
      DoneIsLastStep(c, s, l);
      if l.Work? {
        WorkSummary(c, s, l);
      } else if l.Read? {
      } else {
        QuietSummary(c, s, l);
      }
    }
  }
}
