/**
  Scheduling and uploading stories on top of the account tables. A user's preferences never
  change, so neither does the name of the user's story file: that is why an upload that
  filters by user alone writes exactly the job's own row.
*/
module Stories {
  import opened Jobs
  import opened Sets
  import A = Accounts
  import Fates

  datatype Story = Story(userId: nat, fileName: string, text: string)
  datatype StoryJob = StoryJob(storyId: nat, userId: nat)

  function Join(words: seq<string>): string {
    if words == [] then ""
    else if |words| == 1 then words[0]
    else words[0] + "-" + Join(words[1..])
  }

  /** The words with a dash between each two. */
  lemma {:induction false} JoinConcat(a: seq<string>, b: seq<string>)
    requires a != [] && b != []
    ensures Join(a + b) == Join(a) + "-" + Join(b)
    ensures |a| == 1 ==> Join(a) == a[0]
    decreases |a|
  {
    if |a| > 1 {
      assert (a + b)[1..] == a[1..] + b;
      JoinConcat(a[1..], b);
    } else {
      assert (a + b)[1..] == b;
    }
  }

  function FileName(prefs: seq<string>): string {
    "story-" + Join(prefs)
  }

  // ----- the statements on the stories table

  /** UNIQUE (user_id, file_name) */
  predicate Taken(stories: map<nat, Story>, u: nat, file: string) {
    exists i :: i in stories && stories[i].userId == u && stories[i].fileName == file
  }

  function InsertStory(stories: map<nat, Story>, users: map<nat, A.User>, next: nat, u: nat, file: string): Option<map<nat, Story>> {
    if u !in users || Taken(stories, u, file) then None else Some(stories[next := Story(u, file, "")])
  }

  /** UPDATE stories SET story WHERE user_id */
  function Uploaded(stories: map<nat, Story>, u: nat, text: string): map<nat, Story> {
    map i | i in stories :: if stories[i].userId == u then stories[i].(text := text) else stories[i]
  }

  function Touched(stories: map<nat, Story>, u: nat): set<nat> {
    set i | i in stories && stories[i].userId == u
  }

  /** ON DELETE CASCADE */
  function Cascade(stories: map<nat, Story>, users: map<nat, A.User>): map<nat, Story> {
    map i | i in stories && stories[i].userId in users :: stories[i]
  }

  // ----- interleaved calls

  /** ScheduleStoryGeneration after it read the preferences, inserted the story, inserted the
      job's row. */
  datatype Call =
    | Keyed(u: nat, file: string)
    | Inserted(u: nat, sid: nat)
    | Jobbed(u: nat, sid: nat)

  /** `made` are all stories ever with their users, `jobs` all jobs ever added. */
  datatype State = State(
    acc: A.State,
    stories: map<nat, Story>,
    nextStory: nat,
    calls: map<nat, Call>,
    jobs: set<StoryJob>,
    made: map<nat, nat>)

  const INIT := State(A.INIT, map[], 0, map[], {}, map[])

  datatype Label =
    | Account(l: A.Label)
    | Schedule(p: nat, k: nat)
    | SaveStory(p: nat, o: Outcome)
    | SaveJob(p: nat, o: Outcome)
    | AddJob(p: nat, o: Outcome)
    | Upload(job: StoryJob, text: string, o: Outcome)
    | Crash(p: nat)

  /** An upload comes from a job that was added, however often and however late. */
  predicate Enabled(s: State, l: Label) {
    match l
    case Account(a) => A.Enabled(s.acc, a)
    case Schedule(p, k) => p !in s.calls && k in s.acc.t.prefs
    case SaveStory(p, _) => p in s.calls && s.calls[p].Keyed?
    case SaveJob(p, _) => p in s.calls && s.calls[p].Inserted?
    case AddJob(p, _) => p in s.calls && s.calls[p].Jobbed?
    case Upload(job, _, _) => job in s.jobs
    case Crash(p) => p in s.calls
  }

  function NextSave(s: State, l: Label): State
    requires l.SaveStory? && Enabled(s, l)
  {
    var call := s.calls[l.p];
    var result := InsertStory(s.stories, s.acc.t.users, s.nextStory, call.u, call.file);
    if result.None? then s.(calls := s.calls - {l.p})
    else
      var applied := l.o.Applied();
      s.(stories := if applied then result.value else s.stories,
         nextStory := s.nextStory + 1,
         made := if applied then s.made[s.nextStory := call.u] else s.made,
         calls := if l.o.Ok() then s.calls[l.p := Inserted(call.u, s.nextStory)] else s.calls - {l.p})
  }

  function Next(s: State, l: Label): State
    requires Enabled(s, l)
  {
    match l
    case Account(a) =>
      var acc := A.Next(s.acc, a);
      s.(acc := acc, stories := Cascade(s.stories, acc.t.users))
    case Schedule(p, k) =>
      var row := s.acc.t.prefs[k];
      s.(calls := s.calls[p := Keyed(row.userId, FileName(row.prefs))])
    case SaveStory(_, _) => NextSave(s, l)
    case SaveJob(p, o) =>
      s.(calls := if s.calls[p].sid in s.stories && o.Ok() then s.calls[p := Jobbed(s.calls[p].u, s.calls[p].sid)]
                  else s.calls - {p})
    case AddJob(p, o) =>
      s.(calls := s.calls - {p},
         jobs := if o.Applied() then s.jobs + {StoryJob(s.calls[p].sid, s.calls[p].u)} else s.jobs)
    case Upload(job, text, o) =>
      s.(stories := if o.Applied() then Uploaded(s.stories, job.userId, text) else s.stories)
    case Crash(p) => s.(calls := s.calls - {p})
  }

  ghost predicate Legal(s: State, ls: seq<Label>)
    decreases |ls|
  {
    ls == [] || (Enabled(s, ls[0]) && Legal(Next(s, ls[0]), ls[1..]))
  }

  ghost function Run(s: State, ls: seq<Label>): State
    requires Legal(s, ls)
    decreases |ls|
  {
    if ls == [] then s else Run(Next(s, ls[0]), ls[1..])
  }

  // ----- what every step keeps

  /** The user's row of preferences gives this file name. */
  ghost predicate NameOf(acc: A.State, u: nat, file: string) {
    exists k :: k in acc.t.prefs && acc.t.prefs[k].userId == u && FileName(acc.t.prefs[k].prefs) == file
  }

  ghost predicate StoriesOk(s: State) {
    forall i :: i in s.stories ==>
      && i < s.nextStory && i in s.made && s.made[i] == s.stories[i].userId
      && s.stories[i].userId in s.acc.t.users
      && NameOf(s.acc, s.stories[i].userId, s.stories[i].fileName)
  }

  ghost predicate MadeOk(s: State) {
    && (forall i :: i in s.made ==>
          i < s.nextStory && s.made[i] < s.acc.t.nextUser && (s.made[i] in s.acc.t.users ==> i in s.stories))
    && (forall i, j :: i in s.made && j in s.made && s.made[i] == s.made[j] ==> i == j)
  }

  ghost predicate CallsOk(s: State) {
    forall p :: p in s.calls ==>
      match s.calls[p]
      case Keyed(u, file) => u < s.acc.t.nextUser && (u in s.acc.t.users ==> NameOf(s.acc, u, file))
      case Inserted(u, sid) => sid in s.made && s.made[sid] == u
      case Jobbed(u, sid) => sid in s.made && s.made[sid] == u
  }

  ghost predicate JobsOk(s: State) {
    forall job :: job in s.jobs ==> job.storyId in s.made && s.made[job.storyId] == job.userId
  }

  ghost predicate RecordsOk(s: State) {
    StoriesOk(s) && MadeOk(s) && CallsOk(s) && JobsOk(s)
  }

  ghost predicate Inv(s: State) {
    A.Inv(s.acc) && RecordsOk(s)
  }

  /** A user has one row of preferences, hence one file name. */
  lemma OneName(acc: A.State, u: nat, file: string, other: string)
    requires A.Inv(acc) && NameOf(acc, u, file) && NameOf(acc, u, other)
    ensures file == other
  {
  }

  /** Accounts come and go, but a user that stays keeps its file name. */
  lemma NameStays(acc: A.State, l: A.Label, u: nat, file: string)
    requires A.Inv(acc) && A.Enabled(acc, l) && NameOf(acc, u, file) && u in A.Next(acc, l).t.users
    ensures NameOf(A.Next(acc, l), u, file)
  {
    var k :| k in acc.t.prefs && acc.t.prefs[k].userId == u && FileName(acc.t.prefs[k].prefs) == file;
    A.PrefRowStep(acc, l, k);
    assert k in A.Next(acc, l).t.prefs;
  }

  /** Numbers of users are fresh. */
  lemma UsersAreFresh(acc: A.State, l: A.Label, u: nat)
    requires A.Enabled(acc, l) && u < acc.t.nextUser && u in A.Next(acc, l).t.users
    ensures u in acc.t.users
  {
    A.UserStep(acc, l, u);
  }

  lemma AccountStep(s: State, l: Label)
    requires Inv(s) && Enabled(s, l) && l.Account?
    ensures Inv(Next(s, l))
  {
    var t := Next(s, l);
    A.StepKeepsInv(s.acc, l.l);
    A.StepFollows(s.acc, l.l);
    forall i | i in t.stories
      ensures NameOf(t.acc, t.stories[i].userId, t.stories[i].fileName)
    {
      NameStays(s.acc, l.l, s.stories[i].userId, s.stories[i].fileName);
    }
    forall i | i in t.made && t.made[i] in t.acc.t.users
      ensures i in t.stories
    {
      UsersAreFresh(s.acc, l.l, s.made[i]);
    }
    forall p | p in t.calls && t.calls[p].Keyed? && t.calls[p].u in t.acc.t.users
      ensures NameOf(t.acc, t.calls[p].u, t.calls[p].file)
    {
      UsersAreFresh(s.acc, l.l, s.calls[p].u);
      NameStays(s.acc, l.l, s.calls[p].u, s.calls[p].file);
    }
  }

  /** A user that already got a story has its file name taken. */
  lemma NameTaken(s: State, u: nat, file: string, i: nat)
    requires Inv(s) && NameOf(s.acc, u, file) && u in s.acc.t.users && i in s.made && s.made[i] == u
    ensures Taken(s.stories, u, file)
  {
    OneName(s.acc, u, file, s.stories[i].fileName);
  }

  /** A new story gets a number that no job has. */
  lemma SaveJobs(s: State, l: Label)
    requires MadeOk(s) && JobsOk(s) && Enabled(s, l) && l.SaveStory?
    ensures JobsOk(Next(s, l))
  {
  }

  /** A story that was not there before is the call's. */
  lemma SavedStory(s: State, l: Label, i: nat)
    requires MadeOk(s) && Enabled(s, l) && l.SaveStory? && i in Next(s, l).stories
    ensures
      var t, call := Next(s, l), s.calls[l.p];
      && t.acc == s.acc && s.nextStory <= t.nextStory
      && (forall j :: j in s.made && j != s.nextStory ==> j in t.made && t.made[j] == s.made[j])
      && ((i in s.stories && t.stories[i] == s.stories[i])
          || (i == s.nextStory < t.nextStory && i in t.made && t.made[i] == call.u && call.u in s.acc.t.users
              && t.stories[i].userId == call.u && t.stories[i].fileName == call.file))
  {
  }

  lemma SaveStories(s: State, l: Label)
    requires StoriesOk(s) && MadeOk(s) && CallsOk(s) && Enabled(s, l) && l.SaveStory?
    ensures StoriesOk(Next(s, l))
  {
    var t := Next(s, l);
    forall i | i in t.stories
      ensures i < t.nextStory && i in t.made && t.made[i] == t.stories[i].userId
      ensures t.stories[i].userId in t.acc.t.users && NameOf(t.acc, t.stories[i].userId, t.stories[i].fileName)
    {
      SavedStory(s, l, i);
    }
  }

  lemma SaveMade(s: State, l: Label)
    requires StoriesOk(s) && MadeOk(s) && Enabled(s, l) && l.SaveStory? && s.calls[l.p].u < s.acc.t.nextUser
    requires var u := s.calls[l.p].u;
      u in s.acc.t.users ==> forall i :: i in s.made && s.made[i] == u ==> Taken(s.stories, u, s.calls[l.p].file)
    ensures MadeOk(Next(s, l))
  {
  }

  /** The call that goes on is the one whose story was made. */
  lemma SaveCalls(s: State, l: Label)
    requires MadeOk(s) && CallsOk(s) && Enabled(s, l) && l.SaveStory?
    ensures CallsOk(Next(s, l))
  {
    var t := Next(s, l);
    forall p | p in t.calls && p != l.p
      ensures p in s.calls && t.calls[p] == s.calls[p]
    {
    }
  }

  lemma SaveStep(s: State, l: Label)
    requires Inv(s) && Enabled(s, l) && l.SaveStory?
    ensures Inv(Next(s, l))
  {
    var call := s.calls[l.p];
    forall i | call.u in s.acc.t.users && i in s.made && s.made[i] == call.u
      ensures Taken(s.stories, call.u, call.file)
    {
      NameTaken(s, call.u, call.file, i);
    }
    SaveStories(s, l);
    SaveJobs(s, l);
    SaveMade(s, l);
    SaveCalls(s, l);
  }

  lemma UploadKeeps(s: State, l: Label)
    requires RecordsOk(s) && Enabled(s, l) && l.Upload?
    ensures RecordsOk(Next(s, l))
  {
    var t := Next(s, l);
    assert forall i :: i in t.stories ==>
        i in s.stories && t.stories[i].userId == s.stories[i].userId && t.stories[i].fileName == s.stories[i].fileName;
    assert t.stories.Keys == s.stories.Keys;
  }

  lemma OtherStep(s: State, l: Label)
    requires RecordsOk(s) && Enabled(s, l) && !l.Account? && !l.SaveStory? && !l.Upload?
    requires l.Schedule? ==>
      var u := s.acc.t.prefs[l.k].userId;
      u < s.acc.t.nextUser && NameOf(s.acc, u, FileName(s.acc.t.prefs[l.k].prefs))
    ensures RecordsOk(Next(s, l))
  {
    var t := Next(s, l);
    assert t.stories == s.stories && t.made == s.made && t.acc == s.acc;
    assert StoriesOk(t) && MadeOk(t);
    forall p | p in t.calls && p != l.p
      ensures p in s.calls && t.calls[p] == s.calls[p]
    {
    }
  }

  lemma StepKeepsInv(s: State, l: Label)
    requires Inv(s) && Enabled(s, l)
    ensures Inv(Next(s, l))
  {
    if l.Account? {
      AccountStep(s, l);
    } else if l.SaveStory? {
      SaveStep(s, l);
    } else if l.Upload? {
      UploadKeeps(s, l);
    } else {
      if l.Schedule? {
        assert s.acc.t.prefs[l.k].userId in s.acc.t.users;
      }
      OtherStep(s, l);
    }
  }

  lemma {:induction false} RunKeepsInv(s: State, ls: seq<Label>)
    requires Inv(s) && Legal(s, ls)
    ensures Inv(Run(s, ls))
    decreases |ls|
  {
    if ls != [] {
      StepKeepsInv(s, ls[0]);
      RunKeepsInv(Next(s, ls[0]), ls[1..]);
    }
  }

  lemma InitIsFine()
    ensures Inv(INIT)
  {
    A.InitIsFine();
  }

  lemma Reachable(ls: seq<Label>)
    requires Legal(INIT, ls)
    ensures Inv(Run(INIT, ls))
  {
    InitIsFine();
    RunKeepsInv(INIT, ls);
  }

  // ----- one story per user

  /** No user ever gets a second story, let alone a second job. */
  lemma OneStoryEver(ls: seq<Label>, i: nat, j: nat)
    requires Legal(INIT, ls) && i in Run(INIT, ls).made && j in Run(INIT, ls).made
    requires Run(INIT, ls).made[i] == Run(INIT, ls).made[j]
    ensures i == j
    ensures forall a, b :: a in Run(INIT, ls).jobs && b in Run(INIT, ls).jobs && a.userId == b.userId ==> a == b
  {
    Reachable(ls);
    OneEach(Run(INIT, ls), i, j);
  }

  lemma OneEach(s: State, i: nat, j: nat)
    requires RecordsOk(s) && i in s.made && j in s.made && s.made[i] == s.made[j]
    ensures i == j
    ensures forall a, b :: a in s.jobs && b in s.jobs && a.userId == b.userId ==> a == b
  {
  }

  lemma OwnRow(s: State, job: StoryJob)
    requires RecordsOk(s) && job in s.jobs
    ensures job.userId in s.acc.t.users ==> job.storyId in s.stories
    ensures Touched(s.stories, job.userId) == if job.userId in s.acc.t.users then {job.storyId} else {}
  {
  }

  lemma UploadedRows(stories: map<nat, Story>, u: nat, i: nat, text: string)
    ensures Touched(stories, u) == {} ==> Uploaded(stories, u, text) == stories
    ensures Touched(stories, u) == {i} ==>
      i in stories && Uploaded(stories, u, text) == stories[i := stories[i].(text := text)]
  {
    assert forall k :: k in stories ==> (k in Touched(stories, u) <==> stories[k].userId == u);
    if Touched(stories, u) == {i} {
      assert i in Touched(stories, u);
    }
  }

  /** An upload of u that should write row i wrote exactly that row, or found none because
      the user was deleted. */
  ghost predicate WritesOnly(s: State, t: State, u: nat, i: nat, text: string) {
    if u in s.acc.t.users then
      && i in s.stories && Touched(s.stories, u) == {i}
      && t.stories == s.stories[i := s.stories[i].(text := text)]
    else
      Touched(s.stories, u) == {} && t.stories == s.stories
  }

  lemma UploadStep(s: State, job: StoryJob, text: string)
    requires RecordsOk(s) && job in s.jobs
    ensures WritesOnly(s, Next(s, Upload(job, text, Done)), job.userId, job.storyId, text)
  {
    OwnRow(s, job);
    UploadedRows(s.stories, job.userId, job.storyId, text);
  }

  /** The upload of any job, whenever and however often it runs, writes the job's own row and
      no other. */
  lemma UploadWritesItsOwnRow(ls: seq<Label>, job: StoryJob, text: string)
    requires Legal(INIT, ls) && job in Run(INIT, ls).jobs
    ensures WritesOnly(Run(INIT, ls), Next(Run(INIT, ls), Upload(job, text, Done)), job.userId, job.storyId, text)
  {
    Reachable(ls);
    UploadStep(Run(INIT, ls), job, text);
  }

  // ----- who still gets a job

  predicate HasJob(s: State, u: nat) {
    exists job :: job in s.jobs && job.userId == u
  }

  ghost predicate MadeFor(s: State, u: nat) {
    exists i :: i in s.made && s.made[i] == u
  }

  ghost predicate CanGetJob(s: State, u: nat) {
    exists more :: Legal(s, more) && HasJob(Run(s, more), u)
  }

  /** The call holds the user's story and can still add its job. */
  predicate HoldsStory(s: State, call: Call, u: nat) {
    || (call.Jobbed? && call.u == u)
    || (call.Inserted? && call.u == u && call.sid in s.stories)
  }

  /** The user has a job, or a call holds its story, or it has had no story yet and has, or is
      about to get, its preferences. */
  ghost predicate JobAhead(s: State, u: nat) {
    || HasJob(s, u)
    || (exists p :: p in s.calls && HoldsStory(s, s.calls[p], u))
    || (u in s.acc.t.users && !MadeFor(s, u) && Fates.PrefsAhead(s.acc, u))
  }

  /** A call about to insert a story for the user finds its name taken, or its user gone. */
  lemma SaveFails(s: State, l: Label, u: nat)
    requires Inv(s) && Enabled(s, l) && l.SaveStory? && s.calls[l.p].u == u && !JobAhead(s, u)
    ensures InsertStory(s.stories, s.acc.t.users, s.nextStory, u, s.calls[l.p].file).None?
  {
    if u in s.acc.t.users {
      assert NameOf(s.acc, u, s.calls[l.p].file);
      var k :| k in s.acc.t.prefs && s.acc.t.prefs[k].userId == u;
      assert Fates.PrefsAhead(s.acc, u);
      var i :| i in s.made && s.made[i] == u;
      NameTaken(s, u, s.calls[l.p].file, i);
    }
  }

  lemma NoJobAccount(s: State, l: Label, u: nat)
    requires Inv(s) && Enabled(s, l) && l.Account? && u < s.acc.t.nextUser && !JobAhead(s, u)
    ensures !JobAhead(Next(s, l), u)
  {
    var t := Next(s, l);
    A.UserStep(s.acc, l.l, u);
    if !Fates.PrefsAhead(s.acc, u) {
      Fates.NoPrefsStep(s.acc, l.l, u);
    }
    assert MadeFor(s, u) ==> MadeFor(t, u);
    forall p | p in t.calls
      ensures !HoldsStory(t, t.calls[p], u)
    {
      assert !HoldsStory(s, s.calls[p], u);
    }
  }

  lemma NoJobOther(s: State, l: Label, u: nat)
    requires Enabled(s, l) && !l.Account? && u < s.acc.t.nextUser && !JobAhead(s, u)
    requires l.SaveStory? && s.calls[l.p].u == u ==>
      InsertStory(s.stories, s.acc.t.users, s.nextStory, u, s.calls[l.p].file).None?
    requires forall p :: p in s.calls && s.calls[p].Inserted? ==> s.calls[p].sid < s.nextStory
    requires forall i :: i in s.made ==> i < s.nextStory
    ensures !JobAhead(Next(s, l), u)
  {
    var t := Next(s, l);
    if i :| i in s.made && s.made[i] == u {
      assert i in t.made && t.made[i] == u;
    }
    assert l.AddJob? ==> !HoldsStory(s, s.calls[l.p], u);
    forall p | p in t.calls
      ensures !HoldsStory(t, t.calls[p], u)
    {
      assert p in s.calls ==> !HoldsStory(s, s.calls[p], u);
    }
  }

  lemma NoJobStep(s: State, l: Label, u: nat)
    requires Inv(s) && Enabled(s, l) && u < s.acc.t.nextUser && !JobAhead(s, u)
    ensures !JobAhead(Next(s, l), u) && u < Next(s, l).acc.t.nextUser
  {
    if l.Account? {
      NoJobAccount(s, l, u);
      A.UserStep(s.acc, l.l, u);
    } else {
      if l.SaveStory? && s.calls[l.p].u == u {
        SaveFails(s, l, u);
      }
      NoJobOther(s, l, u);
    }
  }

  lemma {:induction false} NoJobEver(s: State, ls: seq<Label>, u: nat)
    requires Inv(s) && Legal(s, ls) && u < s.acc.t.nextUser && !JobAhead(s, u)
    ensures !HasJob(Run(s, ls), u)
    decreases |ls|
  {
    if ls != [] {
      NoJobStep(s, ls[0], u);
      StepKeepsInv(s, ls[0]);
      NoJobEver(Next(s, ls[0]), ls[1..], u);
    }
  }

  lemma ComesAfter(s: State, l: Label, u: nat)
    requires Enabled(s, l) && CanGetJob(Next(s, l), u)
    ensures CanGetJob(s, u)
  {
    var more :| Legal(Next(s, l), more) && HasJob(Run(Next(s, l), more), u);
    assert ([l] + more)[1..] == more;
    assert Legal(s, [l] + more);
  }

  lemma JobbedComes(s: State, p: nat, u: nat)
    requires p in s.calls && s.calls[p].Jobbed? && s.calls[p].u == u
    ensures CanGetJob(s, u)
  {
    var l := AddJob(p, Done);
    var t := Next(s, l);
    assert StoryJob(s.calls[p].sid, u) in t.jobs;
    assert Legal(t, []) && Run(t, []) == t;
    ComesAfter(s, l, u);
  }

  lemma HeldComes(s: State, p: nat, u: nat)
    requires p in s.calls && HoldsStory(s, s.calls[p], u)
    ensures CanGetJob(s, u)
  {
    if s.calls[p].Jobbed? {
      JobbedComes(s, p, u);
    } else {
      var l := SaveJob(p, Done);
      JobbedComes(Next(s, l), p, u);
      ComesAfter(s, l, u);
    }
  }

  lemma PreferredComes(s: State, u: nat)
    requires StoriesOk(s) && u in s.acc.t.users && !MadeFor(s, u) && !A.Unwritten(s.acc.t, u)
    ensures CanGetJob(s, u)
  {
    var k :| k in s.acc.t.prefs && s.acc.t.prefs[k].userId == u;
    var p := Unused(s.calls.Keys);
    var l0, l1 := Schedule(p, k), SaveStory(p, Done);
    var a := Next(s, l0);
    assert !Taken(s.stories, u, FileName(s.acc.t.prefs[k].prefs)) by {
      assert forall i :: i in s.stories && s.stories[i].userId == u ==> s.made[i] == u;
    }
    assert a.calls[p] == Keyed(u, FileName(s.acc.t.prefs[k].prefs));
    var b := Next(a, l1);
    assert b.calls[p] == Inserted(u, s.nextStory) && s.nextStory in b.stories;
    HeldComes(b, p, u);
    ComesAfter(a, l1, u);
    ComesAfter(s, l0, u);
  }

  lemma PersistingComes(s: State, p: nat, u: nat)
    requires A.TablesOk(s.acc.t) && StoriesOk(s) && u in s.acc.t.users && !MadeFor(s, u) && A.Persisting(s.acc, p, u)
    ensures CanGetJob(s, u)
  {
    var l := Account(A.PersistPrefs(p, Done));
    var t := Next(s, l);
    assert s.acc.t.nextPref in t.acc.t.prefs && t.acc.t.prefs[s.acc.t.nextPref].userId == u;
    assert t.stories == s.stories && t.acc.t.users == s.acc.t.users;
    PersistedNames(s, t, p);
    PreferredComes(t, u);
    ComesAfter(s, l, u);
  }

  lemma PersistedNames(s: State, t: State, p: nat)
    requires StoriesOk(s) && t == s.(acc := t.acc) && t.acc.t.users == s.acc.t.users
    requires forall k :: k in s.acc.t.prefs && k < s.acc.t.nextPref ==> k in t.acc.t.prefs && t.acc.t.prefs[k] == s.acc.t.prefs[k]
    requires forall k :: k in s.acc.t.prefs ==> k < s.acc.t.nextPref
    ensures StoriesOk(t)
  {
    forall i | i in t.stories
      ensures NameOf(t.acc, t.stories[i].userId, t.stories[i].fileName)
    {
      var k :| k in s.acc.t.prefs && s.acc.t.prefs[k].userId == s.stories[i].userId
               && FileName(s.acc.t.prefs[k].prefs) == s.stories[i].fileName;
      assert k in t.acc.t.prefs;
    }
  }

  /** In every reachable state, some later run adds a job for the user exactly if it has one, or
      a call holds its story, or it has had none yet and has or gets its preferences. */
  lemma JobComesExactly(ls: seq<Label>, u: nat)
    requires Legal(INIT, ls) && u < Run(INIT, ls).acc.t.nextUser
    ensures CanGetJob(Run(INIT, ls), u) <==> JobAhead(Run(INIT, ls), u)
  {
    Reachable(ls);
    var s := Run(INIT, ls);
    if JobAhead(s, u) {
      JobComes(s, u);
    } else {
      forall more | Legal(s, more)
        ensures !HasJob(Run(s, more), u)
      {
        NoJobEver(s, more, u);
      }
    }
  }

  lemma JobComes(s: State, u: nat)
    requires Inv(s) && JobAhead(s, u)
    ensures CanGetJob(s, u)
  {
    if HasJob(s, u) {
      assert Legal(s, []) && Run(s, []) == s;
    } else if p :| p in s.calls && HoldsStory(s, s.calls[p], u) {
      HeldComes(s, p, u);
    } else if !A.Unwritten(s.acc.t, u) {
      PreferredComes(s, u);
    } else {
      var p :| A.Persisting(s.acc, p, u);
      PersistingComes(s, p, u);
    }
  }

  /** The call that inserted story i and has not added its job. */
  ghost predicate Holding(s: State, p: nat, i: nat) {
    p in s.calls && !s.calls[p].Keyed? && s.calls[p].sid == i
  }

  /** A story has at most one call at work or one job, never both. */
  ghost predicate SoleOk(s: State) {
    && (forall p, q, i :: Holding(s, p, i) && Holding(s, q, i) ==> p == q)
    && (forall p, i, job :: Holding(s, p, i) && job in s.jobs ==> job.storyId != i)
    && (forall p, i: nat :: Holding(s, p, i) ==> i < s.nextStory)
    && (forall job :: job in s.jobs ==> job.storyId < s.nextStory)
  }

  lemma SoleStep(s: State, l: Label)
    requires SoleOk(s) && Enabled(s, l)
    ensures SoleOk(Next(s, l))
  {
    var t := Next(s, l);
    forall p, i | Holding(t, p, i)
      ensures Holding(s, p, i) || (l.SaveStory? && p == l.p && i == s.nextStory)
    {
    }
    if l.AddJob? {
      assert Holding(s, l.p, s.calls[l.p].sid);
    }
  }

  lemma {:induction false} SoleRun(s: State, ls: seq<Label>)
    requires SoleOk(s) && Legal(s, ls)
    ensures SoleOk(Run(s, ls))
    decreases |ls|
  {
    if ls != [] {
      SoleStep(s, ls[0]);
      SoleRun(Next(s, ls[0]), ls[1..]);
    }
  }

  /** The step inserts or has inserted story i for user u, and stops: a reply is lost, the
      job's row fails, the append is refused, or the call dies. */
  ghost predicate StopsWith(s: State, l: Label, u: nat, i: nat)
    requires Enabled(s, l)
  {
    || (l.SaveStory? && l.o.ReplyLost? && i == s.nextStory && s.calls[l.p].u == u
        && InsertStory(s.stories, s.acc.t.users, i, u, s.calls[l.p].file).Some?)
    || (((l.SaveJob? && !l.o.Ok()) || (l.AddJob? && l.o.Refused?) || l.Crash?) && Holding(s, l.p, i) && s.calls[l.p].u == u)
  }

  /** Nobody holds the story any more, and no job has it. */
  lemma StopLeavesNobody(s: State, l: Label, u: nat, i: nat)
    requires RecordsOk(s) && SoleOk(s) && Enabled(s, l) && StopsWith(s, l, u, i)
    ensures
      var t := Next(s, l);
      && i in t.made && t.made[i] == u
      && (forall job :: job in t.jobs ==> job.storyId != i)
      && (forall p :: !Holding(t, p, i))
  {
    var t := Next(s, l);
    forall p
      ensures !Holding(t, p, i)
    {
      assert l.SaveStory? ==> !Holding(s, p, i);
      assert !l.SaveStory? && Holding(s, p, i) ==> p == l.p;
    }
  }

  /** So a schedule that inserts its story and stops before the job is added leaves a user for
      whom no job is ever added. */
  lemma StoppedScheduleLosesTheStory(ls: seq<Label>, l: Label, u: nat, i: nat)
    requires Legal(INIT, ls) && Enabled(Run(INIT, ls), l) && StopsWith(Run(INIT, ls), l, u, i)
    ensures !CanGetJob(Next(Run(INIT, ls), l), u)
  {
    Reachable(ls);
    SoleRun(INIT, ls);
    StopIsForGood(Run(INIT, ls), l, u, i);
  }

  lemma StopIsForGood(s: State, l: Label, u: nat, i: nat)
    requires Inv(s) && SoleOk(s) && Enabled(s, l) && StopsWith(s, l, u, i)
    ensures !CanGetJob(Next(s, l), u)
  {
    StepKeepsInv(s, l);
    StopLeavesNobody(s, l, u, i);
    NobodyHolds(Next(s, l), u, i);
    StoppedForGood(Next(s, l), u);
  }

  lemma NobodyHolds(s: State, u: nat, i: nat)
    requires MadeOk(s) && CallsOk(s) && JobsOk(s) && i in s.made && s.made[i] == u
    requires (forall job :: job in s.jobs ==> job.storyId != i) && forall p :: !Holding(s, p, i)
    ensures !JobAhead(s, u)
  {
    forall p | p in s.calls
      ensures !HoldsStory(s, s.calls[p], u)
    {
      assert !Holding(s, p, i);
    }
  }

  lemma StoppedForGood(s: State, u: nat)
    requires Inv(s) && u < s.acc.t.nextUser && !JobAhead(s, u)
    ensures !CanGetJob(s, u)
  {
    forall more | Legal(s, more)
      ensures !HasJob(Run(s, more), u)
    {
      NoJobEver(s, more, u);
    }
  }
}
