/**
  Scheduling and generating a story as they are written: each call is proved against the
  tables it leaves, and an undisturbed schedule to be a path of the interleaving machine.
*/
module StoryService {
  import opened Jobs
  import opened Sets
  import opened Stories
  import opened RedisTask
  import A = Accounts
  import Registrar

  class StoryRepo {
    const accounts: Registrar.UserVerificationRepo
    var stories: map<nat, Story>
    var nextStory: nat
    var storyJobs: map<int, Row>
    var emailJobs: map<int, Row>

    constructor (accounts: Registrar.UserVerificationRepo)
      ensures this.accounts == accounts && stories == map[] && storyJobs == map[] && emailJobs == map[]
    {
      this.accounts, stories, nextStory, storyJobs, emailJobs := accounts, map[], 0, map[], map[];
    }

    method SaveStoryInfo(u: nat, file: string, o: Outcome) returns (id: Option<nat>)
      modifies this`stories, this`nextStory
      ensures var free := u in accounts.users && forall i :: i in old(stories) ==> !(old(stories)[i].userId == u && old(stories)[i].fileName == file);
        && stories == (if free && o.Applied() then old(stories)[old(nextStory) := Story(u, file, "")] else old(stories))
        && nextStory == (if free then old(nextStory) + 1 else old(nextStory))
        && id == if free && o.Ok() then Some(old(nextStory)) else None
      ensures
        var result := InsertStory(old(stories), accounts.users, old(nextStory), u, file);
        && stories == (if result.Some? && o.Applied() then result.value else old(stories))
        && nextStory == (if result.Some? then old(nextStory) + 1 else old(nextStory))
        && id == if result.Some? && o.Ok() then Some(old(nextStory)) else None
    {
      if u !in accounts.users || exists i :: i in stories && stories[i].userId == u && stories[i].fileName == file {
        return None;
      }
      if o.Applied() {
        stories := stories[nextStory := Story(u, file, "")];
      }
      id := if o.Ok() then Some(nextStory) else None;
      nextStory := nextStory + 1;
    }

    /** `id` is the next number of the SERIAL column. */
    method SaveStoryJob(storyId: nat, u: nat, id: int, o: Outcome) returns (ok: bool)
      requires id !in storyJobs
      modifies this`storyJobs
      ensures ok <==> o.Ok() && storyId in stories
      ensures storyJobs == if storyId in stories && o.Applied()
                           then old(storyJobs)[id := Row(storyId, u, Pending)] else old(storyJobs)
    {
      ok := storyId in stories && o.Ok();
      if storyId in stories && o.Applied() {
        storyJobs := storyJobs[id := Row(storyId, u, Pending)];
      }
    }

    /** Filters by user only; no row is an error. */
    method UploadStory(u: nat, text: string, o: Outcome) returns (ok: bool)
      modifies this`stories
      ensures ok <==> o.Ok() && exists i :: i in old(stories) && old(stories)[i].userId == u
      ensures forall i :: i in stories <==> i in old(stories)
      ensures forall i :: i in stories ==>
        stories[i] == if o.Applied() && old(stories)[i].userId == u then old(stories)[i].(text := text) else old(stories)[i]
      ensures ok <==> o.Ok() && Touched(old(stories), u) != {}
      ensures stories == if o.Applied() then Uploaded(old(stories), u, text) else old(stories)
    {
      var found := exists i :: i in stories && stories[i].userId == u;
      assert found <==> Touched(stories, u) != {} by {
        if found {
          var i :| i in stories && stories[i].userId == u;
          assert i in Touched(stories, u);
        }
      }
      ok := found && o.Ok();
      if o.Applied() {
        stories := map i | i in stories :: if stories[i].userId == u then stories[i].(text := text) else stories[i];
      }
    }

    method SaveEmailJob(storyId: nat, u: nat, id: int, o: Outcome) returns (ok: bool)
      requires id !in emailJobs
      modifies this`emailJobs
      ensures ok <==> o.Ok() && storyId in stories && u in accounts.users
      ensures emailJobs == if storyId in stories && u in accounts.users && o.Applied()
                           then old(emailJobs)[id := Row(storyId, u, Pending)] else old(emailJobs)
    {
      var known := storyId in stories && u in accounts.users;
      ok := known && o.Ok();
      if known && o.Applied() {
        emailJobs := emailJobs[id := Row(storyId, u, Pending)];
      }
    }
  }

  datatype Answers = Answers(user: Outcome, prefs: Outcome, story: Outcome, job: Outcome, add: Outcome)

  /** What an undisturbed schedule leaves: the stories, whether the job's row is inserted,
      whether the job is added, and the answer. */
  datatype Scheduled = Scheduled(stories: map<nat, Story>, jobRow: bool, added: bool, ok: bool)

  /** `k` is the row of preferences the query returned. */
  function ScheduleAlone(t: A.Tables, stories: map<nat, Story>, next: nat, k: Option<nat>, a: Answers): Scheduled
    requires k.Some? ==> k.value in t.prefs
  {
    if !a.user.Ok() || !a.prefs.Ok() || k.None? then Scheduled(stories, false, false, false)
    else
      var row := t.prefs[k.value];
      var result := InsertStory(stories, t.users, next, row.userId, FileName(row.prefs));
      if result.None? then Scheduled(stories, false, false, false)
      else
        var after := if a.story.Applied() then result.value else stories;
        if !a.story.Ok() then Scheduled(after, false, false, false)
        else if !a.job.Ok() then Scheduled(after, a.job.Applied(), false, false)
        else Scheduled(after, true, a.add.Applied(), a.add.Ok())
  }

  class StorySchedulerService {
    const repo: StoryRepo
    const task: Task
    const stream: string

    constructor (repo: StoryRepo, task: Task, stream: string)
      ensures this.repo == repo && this.task == task && this.stream == stream
    {
      this.repo, this.task, this.stream := repo, task, stream;
    }

    method ScheduleStoryGeneration(u: nat, request: string, jobId: int, a: Answers)
      returns (ok: bool, ghost k: Option<nat>)
      requires task.Valid() && jobId !in repo.storyJobs
      modifies repo`stories, repo`nextStory, repo`storyJobs, task`streams
      ensures task.Valid()
      ensures k.Some? ==> u in repo.accounts.users && k.value in repo.accounts.prefs && repo.accounts.prefs[k.value].userId == u
      ensures k.None? ==>
        || u !in repo.accounts.users || !a.user.Ok() || !a.prefs.Ok()
        || forall m :: m in repo.accounts.prefs ==> repo.accounts.prefs[m].userId != u
      ensures k.Some? <==>
        u in repo.accounts.users && a.user.Ok() && a.prefs.Ok()
        && exists m :: m in repo.accounts.prefs && repo.accounts.prefs[m].userId == u
      ensures k.None? ==>
        !ok && repo.stories == old(repo.stories) && repo.storyJobs == old(repo.storyJobs) && task.streams == old(task.streams)
      // the story of the user's preferences, its job row and its job, each only after the one before
      ensures k.Some? ==>
        var words, id := Join(repo.accounts.prefs[k.value].prefs), old(repo.nextStory);
        var free := forall i :: i in old(repo.stories) ==>
          !(old(repo.stories)[i].userId == u && old(repo.stories)[i].fileName == "story-" + words);
        && (ok <==> free && a.story.Ok() && a.job.Ok() && a.add.Ok())
        && repo.stories == (if free && a.story.Applied() then old(repo.stories)[id := Story(u, "story-" + words, "")] else old(repo.stories))
        && repo.nextStory == (if free then id + 1 else id)
        && repo.storyJobs == (if free && a.story.Ok() && a.job.Applied()
                              then old(repo.storyJobs)[jobId := Row(id, u, Pending)] else old(repo.storyJobs))
      ensures k.Some? ==>
        var words, id := Join(repo.accounts.prefs[k.value].prefs), old(repo.nextStory);
        var free := forall i :: i in old(repo.stories) ==>
          !(old(repo.stories)[i].userId == u && old(repo.stories)[i].fileName == "story-" + words);
        && StreamOf(task.streams, stream).log == StreamOf(old(task.streams), stream).log
             + (if free && a.story.Ok() && a.job.Ok() && a.add.Applied()
                then [Job(jobId, u, id, repo.accounts.users[u].email, words, request, 0)] else [])
        && OnlyStream(old(task.streams), task.streams, stream)
      ensures
        var r := ScheduleAlone(repo.accounts.Contents(), old(repo.stories), old(repo.nextStory), k, a);
        var id := old(repo.nextStory);
        && repo.stories == r.stories && ok == r.ok
        && repo.storyJobs == (if r.jobRow then old(repo.storyJobs)[jobId := Row(id, u, Pending)] else old(repo.storyJobs))
        && task.streams ==
           if r.added then
             var job := Job(jobId, u, id, repo.accounts.users[u].email, Join(repo.accounts.prefs[k.value].prefs), request, 0);
             old(task.streams)[stream := StreamOf(old(task.streams), stream).Add(job)]
           else old(task.streams)
    {
      ok, k := false, None;
      if u !in repo.accounts.users || !a.user.Ok() || !a.prefs.Ok() {
        return;
      }
      if m :| m in repo.accounts.prefs && repo.accounts.prefs[m].userId == u {
        k := Some(m);
        var keywords := Join(repo.accounts.prefs[m].prefs);
        var id := repo.SaveStoryInfo(u, "story-" + keywords, a.story);
        if id.None? {
          return;
        }
        ok := repo.SaveStoryJob(id.value, u, jobId, a.job);
        if !ok {
          return;
        }
        var job := Job(jobId, u, id.value, repo.accounts.users[u].email, keywords, request, 0);
        ok := task.Add(job, stream, a.add);
      }
    }
  }

  class StoryGenerationService {
    const repo: StoryRepo

    constructor (repo: StoryRepo)
      ensures this.repo == repo
    {
      this.repo := repo;
    }

    /** Generate, upload, record the e-mail job: it succeeds only if all three did, and the
        upload stands even when what follows fails. */
    method Execute(storyId: nat, u: nat, text: Option<string>, emailId: int, upload: Outcome, save: Outcome)
      returns (ok: bool)
      requires emailId !in repo.emailJobs
      modifies repo`stories, repo`emailJobs
      ensures repo.stories ==
        if text.Some? && upload.Applied() then Uploaded(old(repo.stories), u, text.value) else old(repo.stories)
      ensures
        var recorded := && text.Some? && upload.Ok() && Touched(old(repo.stories), u) != {}
                        && storyId in old(repo.stories) && u in repo.accounts.users;
        && repo.emailJobs == (if recorded && save.Applied() then old(repo.emailJobs)[emailId := Row(storyId, u, Pending)]
                              else old(repo.emailJobs))
        && (ok <==> recorded && save.Ok())
    {
      if text.None? {
        return false;
      }
      ok := repo.UploadStory(u, text.value, upload);
      if ok {
        ok := repo.SaveEmailJob(storyId, u, emailId, save);
      }
    }
  }

  /** An undisturbed schedule is a path of the machine. */
  lemma ScheduleIsPath(s: State, p: nat, k: nat, a: Answers) returns (ls: seq<Label>)
    requires p !in s.calls && k in s.acc.t.prefs
    requires forall i :: i in s.stories ==> i < s.nextStory
    ensures Legal(s, ls) && Run(s, ls).calls == s.calls
    ensures
      var r := ScheduleAlone(s.acc.t, s.stories, s.nextStory, Some(k), a);
      && Run(s, ls).stories == r.stories
      && Run(s, ls).jobs == s.jobs + if r.added then {StoryJob(s.nextStory, s.acc.t.prefs[k].userId)} else {}
    ensures
      var u, file := s.acc.t.prefs[k].userId, FileName(s.acc.t.prefs[k].prefs);
      var saved := [Schedule(p, k), SaveStory(p, a.story)];
      ls == if !a.user.Ok() || !a.prefs.Ok() then [Schedule(p, k), Crash(p)]
            else if u !in s.acc.t.users || Taken(s.stories, u, file) || !a.story.Ok() then saved
            else if !a.job.Ok() then saved + [SaveJob(p, a.job)]
            else saved + [SaveJob(p, a.job), AddJob(p, a.add)]
  {
    var u, file := s.acc.t.prefs[k].userId, FileName(s.acc.t.prefs[k].prefs);
    ls := AndThen(s, [], Schedule(p, k));
    assert ls == [Schedule(p, k)] && Run(s, ls) == s.(calls := s.calls[p := Keyed(u, file)]);
    if a.user.Ok() && a.prefs.Ok() {
      ls := StoryAndOn(s, ls, p, a);
    } else {
      ls := AndThen(s, ls, Crash(p));
    }
    PutAndTake(s.calls, p, Keyed(u, file), Keyed(u, file));
    assert s.jobs + {} == s.jobs;
  }

  lemma StoryAndOn(s: State, ls: seq<Label>, p: nat, a: Answers) returns (more: seq<Label>)
    requires Legal(s, ls) && p in Run(s, ls).calls && Run(s, ls).calls[p].Keyed?
    requires forall i :: i in Run(s, ls).stories ==> i < Run(s, ls).nextStory
    ensures Legal(s, more) && Run(s, more).calls == Run(s, ls).calls - {p}
    ensures
      var t := Run(s, ls);
      var result := InsertStory(t.stories, t.acc.t.users, t.nextStory, t.calls[p].u, t.calls[p].file);
      && more == ls + [SaveStory(p, a.story)]
           + (if result.Some? && a.story.Ok() then [SaveJob(p, a.job)] else [])
           + (if result.Some? && a.story.Ok() && a.job.Ok() then [AddJob(p, a.add)] else [])
      && Run(s, more).stories == (if result.Some? && a.story.Applied() then result.value else t.stories)
      && Run(s, more).jobs == t.jobs + if result.Some? && a.story.Ok() && a.job.Ok() && a.add.Applied()
                                       then {StoryJob(t.nextStory, t.calls[p].u)} else {}
  {
    var t := Run(s, ls);
    assert t.jobs + {} == t.jobs;
    more := AndThen(s, ls, SaveStory(p, a.story));
    assert Run(s, more).calls - {p} == t.calls - {p};
    if p in Run(s, more).calls {
      more := JobAndAdd(s, more, p, a);
    }
  }

  lemma JobAndAdd(s: State, ls: seq<Label>, p: nat, a: Answers) returns (more: seq<Label>)
    requires Legal(s, ls) && p in Run(s, ls).calls && Run(s, ls).calls[p].Inserted?
    requires Run(s, ls).calls[p].sid in Run(s, ls).stories
    ensures Legal(s, more) && Run(s, more).calls == Run(s, ls).calls - {p}
    ensures
      var t := Run(s, ls);
      && Run(s, more).stories == t.stories
      && Run(s, more).jobs == t.jobs +
           if a.job.Ok() && a.add.Applied() then {StoryJob(t.calls[p].sid, t.calls[p].u)} else {}
    ensures more == ls + [SaveJob(p, a.job)] + if a.job.Ok() then [AddJob(p, a.add)] else []
  {
    var t := Run(s, ls);
    assert t.jobs + {} == t.jobs;
    more := AndThen(s, ls, SaveJob(p, a.job));
    if p in Run(s, more).calls {
      more := AndThen(s, more, AddJob(p, a.add));
    }
  }

  lemma {:induction false} Append(s: State, a: seq<Label>, b: seq<Label>)
    requires Legal(s, a) && Legal(Run(s, a), b)
    ensures Legal(s, a + b) && Run(s, a + b) == Run(Run(s, a), b)
    decreases |a|
  {
    if a == [] {
      assert a + b == b;
    } else {
      assert (a + b)[1..] == a[1..] + b;
      Append(Next(s, a[0]), a[1..], b);
    }
  }

  lemma AndThen(s: State, ls: seq<Label>, l: Label) returns (more: seq<Label>)
    requires Legal(s, ls) && Enabled(Run(s, ls), l)
    ensures more == ls + [l] && Legal(s, more) && Run(s, more) == Next(Run(s, ls), l)
  {
    assert [l][1..] == [] && Legal(Next(Run(s, ls), l), []);
    Append(s, ls, [l]);
    more := ls + [l];
  }
}
