/**
  Registration, verification and deletion as they are written, over the SQL tables and the
  store of one-time passwords. Each undisturbed call is a path of the interleaving machine.
*/
module Registrar {
  import opened Jobs
  import opened Accounts
  import Otp

  class UserVerificationRepo {
    var staging: map<string, Staged>
    var nextStaged: nat
    var verification: map<string, string>
    var users: map<nat, User>
    var nextUser: nat
    var prefs: map<nat, PrefRow>
    var nextPref: nat

    constructor ()
      ensures Contents() == EMPTY
    {
      staging, nextStaged, verification, users := map[], 0, map[], map[];
      nextUser, prefs, nextPref := 0, map[], 0;
    }

    ghost function Contents(): Tables
      reads this
    {
      Tables(staging, nextStaged, verification, users, nextUser, prefs, nextPref)
    }

    method HasEmail(email: string) returns (found: bool)
      ensures found <==> HasUser(Contents(), email)
    {
      found := exists u :: u in users && users[u].email == email;
    }

    method CreateUser(reg: Registration, o: Outcome) returns (ok: bool)
      modifies this`staging, this`nextStaged
      ensures ok <==> o.Ok() && reg.email !in old(staging)
      ensures if reg.email !in old(staging) && o.Applied()
              then staging == old(staging)[reg.email := Staged(old(nextStaged), reg)] && nextStaged == old(nextStaged) + 1
              else staging == old(staging) && nextStaged == old(nextStaged)
      ensures Contents() == After(old(Contents()), InsertStaged(old(Contents()), reg), o)
      ensures ok <==> o.Ok() && InsertStaged(old(Contents()), reg).Some?
    {
      var free := reg.email !in staging;
      if free && o.Applied() {
        staging, nextStaged := staging[reg.email := Staged(nextStaged, reg)], nextStaged + 1;
      }
      ok := free && o.Ok();
    }

    method SaveVerificationData(request: string, email: string, o: Outcome) returns (ok: bool)
      modifies this`verification
      ensures ok <==> o.Ok() && email !in old(verification) && email in staging
      ensures verification == if o.Applied() && email !in old(verification) && email in staging
                              then old(verification)[email := request] else old(verification)
      ensures Contents() == After(old(Contents()), InsertVerification(old(Contents()), request, email), o)
      ensures ok <==> o.Ok() && InsertVerification(old(Contents()), request, email).Some?
    {
      var free := email !in verification && email in staging;
      if free && o.Applied() {
        verification := verification[email := request];
      }
      ok := free && o.Ok();
    }

    /** request_id is not unique: any row with it may be the one returned. */
    method RetrieveVerificationData(request: string, o: Outcome) returns (email: Option<string>)
      ensures email.Some? ==> email.value in verification && verification[email.value] == request
      ensures email.None? <==> !o.Ok() || forall e :: e in verification ==> verification[e] != request
    {
      email := None;
      if o.Ok() {
        if e :| e in verification && verification[e] == request {
          email := Some(e);
        }
      }
    }

    method PersistUserInfo(email: string, o: Outcome) returns (r: Option<(nat, seq<string>)>)
      modifies this`users, this`nextUser
      ensures var free := email in staging && forall u :: u in old(users) ==> old(users)[u].email != email;
        && (r.Some? <==> o.Ok() && free)
        && (r.Some? ==> r.value == (old(nextUser), staging[email].reg.prefs))
        && if free && o.Applied()
           then users == old(users)[old(nextUser) := User(email, staging[email].reg.password)] && nextUser == old(nextUser) + 1
           else users == old(users) && nextUser == old(nextUser)
      ensures Contents() == After(old(Contents()), InsertUser(old(Contents()), email), o)
      ensures r == if o.Ok() && InsertUser(old(Contents()), email).Some?
                   then Some((old(nextUser), old(staging)[email].reg.prefs)) else None
    {
      var known := HasEmail(email);
      if email !in staging || known {
        return None;
      }
      var row := staging[email];
      r := if o.Ok() then Some((nextUser, row.reg.prefs)) else None;
      if o.Applied() {
        users, nextUser := users[nextUser := User(email, row.reg.password)], nextUser + 1;
      }
    }

    method PersistUserPreferences(u: nat, preferences: seq<string>, o: Outcome) returns (ok: bool)
      modifies this`prefs, this`nextPref
      ensures if u in users && o.Applied()
              then prefs == old(prefs)[old(nextPref) := PrefRow(u, preferences)] && nextPref == old(nextPref) + 1
              else prefs == old(prefs) && nextPref == old(nextPref)
      ensures Contents() == After(old(Contents()), InsertPrefs(old(Contents()), u, preferences), o)
      ensures ok <==> o.Ok() && u in old(users)
    {
      if u in users && o.Applied() {
        prefs, nextPref := prefs[nextPref := PrefRow(u, preferences)], nextPref + 1;
      }
      ok := u in users && o.Ok();
    }

    method DeleteUserFromStaging(email: string, o: Outcome) returns (ok: bool)
      modifies this`staging, this`verification
      ensures if email in old(staging) && o.Applied()
              then staging == old(staging) - {email} && verification == old(verification) - {email}
              else staging == old(staging) && verification == old(verification)
      ensures Contents() == After(old(Contents()), RemoveStaged(old(Contents()), email), o)
      ensures ok <==> o.Ok() && email in old(staging)
    {
      ok := email in staging && o.Ok();
      if email in staging && o.Applied() {
        staging, verification := staging - {email}, verification - {email};
      }
    }

    method DeleteUserByID(u: nat, o: Outcome) returns (ok: bool)
      modifies this`users, this`prefs
      ensures users == if o.Applied() then old(users) - {u} else old(users)
      ensures forall k :: k in prefs <==>
        k in old(prefs) && !(o.Applied() && u in old(users) && old(prefs)[k].userId == u)
      ensures forall k :: k in prefs ==> prefs[k] == old(prefs)[k]
      ensures Contents() == After(old(Contents()), RemoveUser(old(Contents()), u), o)
      ensures ok <==> o.Ok() && u in old(users)
    {
      ok := u in users && o.Ok();
      if u in users && o.Applied() {
        users := users - {u};
        prefs := map k | k in prefs && prefs[k].userId != u :: prefs[k];
      }
    }
  }

  /** What the calls inside RegisterUser and VerifyUser answer; `hashed` is false when hashing
      or generating fails, `mailed` when the e-mail does. */
  datatype Answers = Answers(
    lookup: Outcome, hashed: bool, created: Outcome, recorded: Outcome, otpHashed: bool,
    set_: Outcome, expire: Outcome, mailed: bool)
  datatype Replies = Replies(find: Outcome, get: Outcome, last: Outcome, user: Outcome, prefs: Outcome, staged: Outcome)

  /** A failure after the password is hashed is answered with neither a message nor an error. */
  datatype Registered = Sent | Conflict | Error | Nothing

  /** How far an undisturbed registration gets: the tables, the answer, and whether the
      password was saved. */
  function RegisterAlone(t: Tables, reg: Registration, request: string, a: Answers): (Tables, Registered, bool) {
    if a.lookup.Ok() && HasUser(t, reg.email) then (t, Conflict, false)
    else if !a.hashed then (t, Error, false)
    else
      var staged := InsertStaged(t, reg);
      var t1 := After(t, staged, a.created);
      if staged.None? || !a.created.Ok() then (t1, Error, false)
      else
        var recorded := InsertVerification(t1, request, reg.email);
        var t2 := After(t1, recorded, a.recorded);
        if recorded.None? || !a.recorded.Ok() || !a.otpHashed then (t2, Error, false)
        else (t2, if a.set_.Ok() && a.expire.Ok() && a.mailed then Sent else Nothing, a.set_.Applied())
  }

  /** How far an undisturbed verification gets once the password was accepted. */
  function VerifyAlone(t: Tables, email: string, a: Replies): (Tables, bool) {
    var user := InsertUser(t, email);
    var t1 := After(t, user, a.user);
    if user.None? || !a.user.Ok() then (t1, false)
    else
      var t2 := After(t1, InsertPrefs(t1, t.nextUser, t.staging[email].reg.prefs), a.prefs);
      if !a.prefs.Ok() then (t2, false)
      else (After(t2, RemoveStaged(t2, email), a.staged), a.staged.Ok())
  }

  class UserService {
    const repo: UserVerificationRepo
    const otps: Otp.OtpStore

    constructor (repo: UserVerificationRepo, otps: Otp.OtpStore)
      ensures this.repo == repo && this.otps == otps
    {
      this.repo, this.otps := repo, otps;
    }

    method RegisterUser(reg: Registration, request: string, otp: string, a: Answers) returns (r: Registered)
      modifies repo`staging, repo`nextStaged, repo`verification, otps
      // the answers: a conflict, a full registration, one that stopped after its password was hashed
      ensures var known := a.lookup.Ok() && exists u :: u in repo.users && repo.users[u].email == reg.email;
        var filed := !known && a.hashed && reg.email !in old(repo.staging) && a.created.Ok();
        var recorded := filed && reg.email !in old(repo.verification) && a.recorded.Ok() && a.otpHashed;
        && (r == Conflict <==> known)
        && (r == Sent <==> recorded && a.set_.Ok() && a.expire.Ok() && a.mailed)
        && (r == Nothing <==> recorded && !(a.set_.Ok() && a.expire.Ok() && a.mailed))
      // what a user who was told so can rely on
      ensures r == Sent ==>
        && Otp.KeyOf(otps.hashes, reg.email) == Some(Otp.Record(Some(otp), 0))
        && reg.email in repo.staging && repo.staging[reg.email].reg == reg
        && reg.email in repo.verification && repo.verification[reg.email] == request
      // how far it gets
      ensures var known := a.lookup.Ok() && exists u :: u in repo.users && repo.users[u].email == reg.email;
        var filed := !known && a.hashed && reg.email !in old(repo.staging);
        var recorded := filed && a.created.Ok() && reg.email !in old(repo.verification);
        && (if filed && a.created.Applied()
            then repo.staging == old(repo.staging)[reg.email := Staged(old(repo.nextStaged), reg)] && repo.nextStaged == old(repo.nextStaged) + 1
            else repo.staging == old(repo.staging) && repo.nextStaged == old(repo.nextStaged))
        && repo.verification == (if recorded && a.recorded.Applied() then old(repo.verification)[reg.email := request]
                                 else old(repo.verification))
        && Otp.KeyOf(otps.hashes, reg.email) == (if recorded && a.recorded.Ok() && a.otpHashed && a.set_.Applied()
                                                 then Some(Otp.Record(Some(otp), 0)) else Otp.KeyOf(old(otps.hashes), reg.email))
      ensures (repo.Contents(), r) == (RegisterAlone(old(repo.Contents()), reg, request, a).0, RegisterAlone(old(repo.Contents()), reg, request, a).1)
      ensures Otp.KeyOf(otps.hashes, reg.email) ==
              if RegisterAlone(old(repo.Contents()), reg, request, a).2 then Some(Otp.Record(Some(otp), 0))
              else Otp.KeyOf(old(otps.hashes), reg.email)
      ensures forall e :: e != reg.email ==> Otp.KeyOf(otps.hashes, e) == Otp.KeyOf(old(otps.hashes), e)
    {
      var existing := repo.HasEmail(reg.email);
      if existing && a.lookup.Ok() {
        return Conflict;
      }
      if !a.hashed {
        return Error;
      }
      var ok := repo.CreateUser(reg, a.created);
      if !ok {
        return Error;
      }
      ok := repo.SaveVerificationData(request, reg.email, a.recorded);
      if !ok || !a.otpHashed {
        return Error;
      }
      ok := otps.SaveOTP(reg.email, otp, a.set_, a.expire);
      r := if ok && a.mailed then Sent else Nothing;
    }

    method VerifyUser(request: string, sent: string, a: Replies) returns (ok: bool, ghost picked: Option<string>)
      modifies repo`users, repo`nextUser, repo`prefs, repo`nextPref, repo`staging, repo`verification, otps
      // whom it verifies: the address whose saved password was sent, while it is free
      ensures picked.Some? ==>
        var e := picked.value; var key := Otp.KeyOf(old(otps.hashes), e);
        var matched := a.get.Ok() && key.Some? && key.value.count < 3 && key.value.otp == Some(sent);
        var admitted := matched && e in old(repo.staging) && forall u :: u in old(repo.users) ==> old(repo.users)[u].email != e;
        && (ok <==> admitted && a.user.Ok() && a.prefs.Ok() && a.staged.Ok())
        && (if admitted && a.user.Applied()
            then && repo.users == old(repo.users)[old(repo.nextUser) := User(e, old(repo.staging)[e].reg.password)]
                 && repo.nextUser == old(repo.nextUser) + 1
            else repo.users == old(repo.users) && repo.nextUser == old(repo.nextUser))
        && (matched && a.last.Applied() ==> Otp.KeyOf(otps.hashes, e) == None)
      // and what it moves over
      ensures picked.Some? ==>
        var e := picked.value; var key := Otp.KeyOf(old(otps.hashes), e);
        var made := a.get.Ok() && key.Some? && key.value.count < 3 && key.value.otp == Some(sent) && a.user.Ok()
          && e in old(repo.staging) && forall u :: u in old(repo.users) ==> old(repo.users)[u].email != e;
        && (if made && a.prefs.Applied()
            then && repo.prefs == old(repo.prefs)[old(repo.nextPref) := PrefRow(old(repo.nextUser), old(repo.staging)[e].reg.prefs)]
                 && repo.nextPref == old(repo.nextPref) + 1
            else repo.prefs == old(repo.prefs) && repo.nextPref == old(repo.nextPref))
        && if made && a.prefs.Ok() && a.staged.Applied()
           then repo.staging == old(repo.staging) - {e} && repo.verification == old(repo.verification) - {e}
           else repo.staging == old(repo.staging) && repo.verification == old(repo.verification)
      ensures picked.None? <==> !a.find.Ok() || forall e :: e in old(repo.verification) ==> old(repo.verification)[e] != request
      ensures picked.Some? ==> picked.value in old(repo.verification) && old(repo.verification)[picked.value] == request
      ensures picked.None? ==> !ok && repo.Contents() == old(repo.Contents()) && otps.hashes == old(otps.hashes)
      ensures picked.Some? ==>
        var (key, answer) := Otp.VerifyAlone(Otp.KeyOf(old(otps.hashes), picked.value), sent, a.get, a.last);
        && Otp.KeyOf(otps.hashes, picked.value) == key
        && (repo.Contents(), ok) ==
           if answer.Ok? then VerifyAlone(old(repo.Contents()), picked.value, a) else (old(repo.Contents()), false)
    {
      var email := repo.RetrieveVerificationData(request, a.find);
      picked := email;
      ok := false;
      if email.None? {
        return;
      }
      var answer := otps.VerifyOTP(email.value, sent, a.get, a.last);
      if !answer.Ok? {
        return;
      }
      var user := repo.PersistUserInfo(email.value, a.user);
      if user.None? {
        return;
      }
      ok := repo.PersistUserPreferences(user.value.0, user.value.1, a.prefs);
      if ok {
        ok := repo.DeleteUserFromStaging(email.value, a.staged);
      }
    }
  }

  // ----- paths of the machine

  /** The hash of an address, as the store of one-time passwords has it. */
  function KeyFor(hashes: map<string, Hash>, email: string): Option<Otp.Record> {
    if email in hashes then Some(Otp.Record(OtpText(hashes[email].saved), hashes[email].count)) else None
  }

  /** An undisturbed registration is a path: these statements with these outcomes, in order. */
  lemma RegisterIsPath(s: State, p: nat, reg: Registration, request: string, otp: string, a: Answers)
    returns (ls: seq<Label>)
    requires p !in s.calls
    ensures Legal(s, ls) && Run(s, ls).calls == s.calls
    ensures
      var (t, r, saved) := RegisterAlone(s.t, reg, request, a);
      && Run(s, ls).t == t
      && SavesFor(s, Run(s, ls), if saved then Some(SavedOtp(reg.email, s.t.nextStaged, otp)) else None)
    ensures
      var first := [Register(p, reg, a.lookup)];
      var filed := first + [CreateUser(p, a.created)];
      var recorded := filed + [SaveVerification(p, request, a.recorded)];
      ls == if a.lookup.Ok() && HasUser(s.t, reg.email) then first
            else if !a.hashed then first + [Crash(p)]
            else if reg.email in s.t.staging || !a.created.Ok() then filed
            else if reg.email in s.t.verification || !a.recorded.Ok() then recorded
            else recorded + [if a.otpHashed then SaveOtp(p, otp, a.set_) else Crash(p)]
  {
    assert s.otps + [] == s.otps;
    ls := AndThen(s, [], Register(p, reg, a.lookup));
    assert ls == [Register(p, reg, a.lookup)];
    if !(a.lookup.Ok() && HasUser(s.t, reg.email)) {
      assert Run(s, ls) == s.(calls := s.calls[p := Checked(reg)]);
      ls := HashAndOn(s, ls, p, reg, request, otp, a);
    }
  }

  lemma HashAndOn(s: State, ls: seq<Label>, p: nat, reg: Registration, request: string, otp: string, a: Answers)
    returns (more: seq<Label>)
    requires p !in s.calls && Legal(s, ls) && Run(s, ls) == s.(calls := s.calls[p := Checked(reg)])
    requires !(a.lookup.Ok() && HasUser(s.t, reg.email))
    ensures Legal(s, more) && Run(s, more).calls == s.calls
    ensures
      var (t, r, saved) := RegisterAlone(s.t, reg, request, a);
      && Run(s, more).t == t
      && SavesFor(s, Run(s, more), if saved then Some(SavedOtp(reg.email, s.t.nextStaged, otp)) else None)
    ensures
      var filed := ls + [CreateUser(p, a.created)];
      var recorded := filed + [SaveVerification(p, request, a.recorded)];
      more == if !a.hashed then ls + [Crash(p)]
              else if reg.email in s.t.staging || !a.created.Ok() then filed
              else if reg.email in s.t.verification || !a.recorded.Ok() then recorded
              else recorded + [if a.otpHashed then SaveOtp(p, otp, a.set_) else Crash(p)]
  {
    if a.hashed {
      more := CreateAndOn(s, ls, p, reg, request, otp, a);
    } else {
      more := AndThen(s, ls, Crash(p));
    }
    assert Run(s, more).calls == s.calls;
  }

  /** This password, or none, was saved in between. */
  ghost predicate SavesFor(s: State, t: State, saved: Option<SavedOtp>) {
    match saved
    case None => t.otps == s.otps && t.hashes == s.hashes
    case Some(one) => t.otps == s.otps + [one] && t.hashes == s.hashes[one.email := Hash(saved, 0)]
  }

  lemma CreateAndOn(s: State, ls: seq<Label>, p: nat, reg: Registration, request: string, otp: string, a: Answers)
    returns (more: seq<Label>)
    requires p !in s.calls && Legal(s, ls) && Run(s, ls) == s.(calls := s.calls[p := Checked(reg)])
    requires !(a.lookup.Ok() && HasUser(s.t, reg.email)) && a.hashed
    ensures Legal(s, more) && Run(s, more).calls == s.calls[p := Checked(reg)] - {p}
    ensures
      var (t, r, saved) := RegisterAlone(s.t, reg, request, a);
      && Run(s, more).t == t
      && SavesFor(s, Run(s, more), if saved then Some(SavedOtp(reg.email, s.t.nextStaged, otp)) else None)
    ensures
      var filed := ls + [CreateUser(p, a.created)];
      var recorded := filed + [SaveVerification(p, request, a.recorded)];
      more == if reg.email in s.t.staging || !a.created.Ok() then filed
              else if reg.email in s.t.verification || !a.recorded.Ok() then recorded
              else recorded + [if a.otpHashed then SaveOtp(p, otp, a.set_) else Crash(p)]
  {
    more := AndThen(s, ls, CreateUser(p, a.created));
    var u := Run(s, more);
    assert u.calls - {p} == s.calls[p := Checked(reg)] - {p};
    if InsertStaged(s.t, reg).Some? && a.created.Ok() {
      more := RecordAndSave(s, more, p, reg.email, request, otp, a);
    }
  }

  lemma RecordAndSave(s: State, ls: seq<Label>, p: nat, email: string, request: string, otp: string, a: Answers)
    returns (more: seq<Label>)
    requires Legal(s, ls) && p in Run(s, ls).calls && Run(s, ls).calls[p].Created? && Run(s, ls).calls[p].email == email
    ensures Legal(s, more) && Run(s, more).calls == Run(s, ls).calls - {p}
    ensures
      var u := Run(s, ls);
      var result := InsertVerification(u.t, request, email);
      && Run(s, more).t == After(u.t, result, a.recorded)
      && SavesFor(u, Run(s, more), if result.Some? && a.recorded.Ok() && a.otpHashed && a.set_.Applied()
                                   then Some(SavedOtp(email, u.calls[p].sid, otp)) else None)
    ensures
      var recorded := ls + [SaveVerification(p, request, a.recorded)];
      more == if InsertVerification(Run(s, ls).t, request, email).None? || !a.recorded.Ok() then recorded
              else recorded + [if a.otpHashed then SaveOtp(p, otp, a.set_) else Crash(p)]
  {
    more := AndThen(s, ls, SaveVerification(p, request, a.recorded));
    if p in Run(s, more).calls {
      more := AndThen(s, more, if a.otpHashed then SaveOtp(p, otp, a.set_) else Crash(p));
    }
  }

  /** An undisturbed verification is a path: it goes on to the tables exactly if the store of
      one-time passwords answers Ok, and leaves of the hash what the store leaves. */
  lemma VerifyIsPath(s: State, p: nat, request: string, email: string, sent: string, a: Replies) returns (ls: seq<Label>)
    requires p !in s.calls && email in s.t.verification && s.t.verification[email] == request
    ensures Legal(s, ls) && Run(s, ls).calls == s.calls
    ensures
      var (key, answer) := Otp.VerifyAlone(KeyFor(s.hashes, email), sent, a.get, a.last);
      && KeyFor(Run(s, ls).hashes, email) == key
      && (forall other :: other != email ==> KeyFor(Run(s, ls).hashes, other) == KeyFor(s.hashes, other))
      && Run(s, ls).t == if answer.Ok? then VerifyAlone(s.t, email, a).0 else s.t
    ensures
      var start := [Verify(p, request, email), LoadOtp(p, a.get)];
      if !a.get.Ok() || email !in s.hashes then ls == start
      else if s.hashes[email].count >= 3 then ls == start + [FinishOtp(p, a.last)]
      else
        var answered := start + [CompareOtp(p, sent), FinishOtp(p, a.last)];
        var saved := s.hashes[email].saved;
        ls == if saved.Some? && saved.value.otp == sent then answered + Moves(s.t, p, email, a) else answered
  {
    ls := LoadIsPath(s, p, request, email, a.get);
    if p in Run(s, ls).calls {
      ls := AnswerIsPath(s, ls, p, email, sent, a.last);
      if p in Run(s, ls).calls {
        ls := PersistAndOn(s, ls, p, email, a);
      }
    }
    assert Run(s, ls).calls == s.calls;
  }

  /** The statements once the password was accepted: each only if the one before succeeded. */
  function Moves(t: Tables, p: nat, email: string, a: Replies): seq<Label> {
    var made := email in t.staging && !HasUser(t, email) && a.user.Ok();
    [PersistUser(p, a.user)]
    + (if made then [PersistPrefs(p, a.prefs)] else [])
    + (if made && a.prefs.Ok() then [DeleteStaged(p, a.staged)] else [])
  }

  lemma LoadIsPath(s: State, p: nat, request: string, email: string, get: Outcome) returns (ls: seq<Label>)
    requires p !in s.calls && email in s.t.verification && s.t.verification[email] == request
    ensures ls == [Verify(p, request, email), LoadOtp(p, get)]
    ensures Legal(s, ls) && Run(s, ls) == s.(calls := Run(s, ls).calls) && Run(s, ls).calls - {p} == s.calls
    ensures p in Run(s, ls).calls <==> get.Ok() && email in s.hashes
    ensures p !in Run(s, ls).calls ==> Run(s, ls).calls == s.calls
    ensures p in Run(s, ls).calls ==>
      Run(s, ls).calls[p] ==
      if s.hashes[email].count >= Otp.MAX_TRIES then Blocked(email) else Loaded(email, s.hashes[email].saved)
  {
    ls := AndThen(s, [], Verify(p, request, email));
    assert Run(s, ls) == s.(calls := s.calls[p := Found(email)]);
    ls := AndThen(s, ls, LoadOtp(p, get));
    assert Run(s, ls).calls - {p} == s.calls;
  }

  /** From u to v the call was answered as the store of one-time passwords answers it alone; the
      hashes of other addresses and the tables are as they were. */
  ghost predicate AnsweredAlone(u: State, v: State, p: nat, email: string, sent: string, last: Outcome) {
    var (key, answer) := Otp.VerifyAlone(KeyFor(u.hashes, email), sent, Done, last);
    && KeyFor(v.hashes, email) == key
    && (forall other :: other != email ==> KeyFor(v.hashes, other) == KeyFor(u.hashes, other))
    && v.t == u.t && v.calls - {p} == u.calls - {p}
    && (p in v.calls <==> answer.Ok?)
    && (p in v.calls ==> v.calls[p].Verified? && v.calls[p].email == email)
    && (p !in v.calls ==> v.calls == u.calls - {p})
  }

  lemma BlockedIsPath(s: State, ls: seq<Label>, p: nat, email: string, sent: string, last: Outcome) returns (more: seq<Label>)
    requires Legal(s, ls) && p in Run(s, ls).calls && email in Run(s, ls).hashes
    requires Run(s, ls).calls[p] == Blocked(email) && Run(s, ls).hashes[email].count >= Otp.MAX_TRIES
    ensures more == ls + [FinishOtp(p, last)]
    ensures Legal(s, more) && AnsweredAlone(Run(s, ls), Run(s, more), p, email, sent, last)
  {
    more := AndThen(s, ls, FinishOtp(p, last));
    assert Run(s, more).calls - {p} == Run(s, ls).calls - {p};
  }

  lemma ComparedIsPath(s: State, ls: seq<Label>, p: nat, email: string, sent: string, last: Outcome) returns (more: seq<Label>)
    requires Legal(s, ls) && p in Run(s, ls).calls && email in Run(s, ls).hashes
    requires Run(s, ls).calls[p] == Loaded(email, Run(s, ls).hashes[email].saved)
    requires Run(s, ls).hashes[email].count < Otp.MAX_TRIES
    ensures more == ls + [CompareOtp(p, sent), FinishOtp(p, last)]
    ensures Legal(s, more) && AnsweredAlone(Run(s, ls), Run(s, more), p, email, sent, last)
  {
    var compared := AndThen(s, ls, CompareOtp(p, sent));
    more := AndThen(s, compared, FinishOtp(p, last));
    assert Run(s, compared).calls - {p} == Run(s, ls).calls - {p};
    assert Run(s, more).calls - {p} == Run(s, compared).calls - {p};
  }

  lemma AnswerIsPath(s: State, ls: seq<Label>, p: nat, email: string, sent: string, last: Outcome) returns (more: seq<Label>)
    requires Legal(s, ls) && p in Run(s, ls).calls && email in Run(s, ls).hashes
    requires
      var u := Run(s, ls);
      u.calls[p] == if u.hashes[email].count >= Otp.MAX_TRIES then Blocked(email) else Loaded(email, u.hashes[email].saved)
    ensures more == ls + (if Run(s, ls).hashes[email].count >= 3 then [] else [CompareOtp(p, sent)]) + [FinishOtp(p, last)]
    ensures Legal(s, more) && AnsweredAlone(Run(s, ls), Run(s, more), p, email, sent, last)
  {
    if Run(s, ls).calls[p].Loaded? {
      more := ComparedIsPath(s, ls, p, email, sent, last);
    } else {
      more := BlockedIsPath(s, ls, p, email, sent, last);
    }
  }

  lemma PersistAndOn(s: State, ls: seq<Label>, p: nat, email: string, a: Replies) returns (more: seq<Label>)
    requires Legal(s, ls) && p in Run(s, ls).calls
    requires Run(s, ls).calls[p].Verified? && Run(s, ls).calls[p].email == email
    ensures Legal(s, more) && Run(s, more).calls == Run(s, ls).calls - {p}
    ensures Run(s, more).t == VerifyAlone(Run(s, ls).t, email, a).0 && Run(s, more).hashes == Run(s, ls).hashes
    ensures more == ls + Moves(Run(s, ls).t, p, email, a)
  {
    more := AndThen(s, ls, PersistUser(p, a.user));
    assert Run(s, more).calls - {p} == Run(s, ls).calls - {p};
    if p in Run(s, more).calls {
      more := PrefsAndOn(s, more, p, a);
    }
  }

  lemma PrefsAndOn(s: State, ls: seq<Label>, p: nat, a: Replies) returns (more: seq<Label>)
    requires Legal(s, ls) && p in Run(s, ls).calls && Run(s, ls).calls[p].Persisted?
    requires Run(s, ls).calls[p].uid in Run(s, ls).t.users
    ensures Legal(s, more) && Run(s, more).calls == Run(s, ls).calls - {p} && Run(s, more).hashes == Run(s, ls).hashes
    ensures
      var t, call := Run(s, ls).t, Run(s, ls).calls[p];
      var t2 := After(t, InsertPrefs(t, call.uid, call.prefs), a.prefs);
      Run(s, more).t == if a.prefs.Ok() then After(t2, RemoveStaged(t2, call.email), a.staged) else t2
    ensures more == ls + [PersistPrefs(p, a.prefs)] + if a.prefs.Ok() then [DeleteStaged(p, a.staged)] else []
  {
    more := AndThen(s, ls, PersistPrefs(p, a.prefs));
    assert Run(s, more).calls - {p} == Run(s, ls).calls - {p};
    if p in Run(s, more).calls {
      more := AndThen(s, more, DeleteStaged(p, a.staged));
    }
  }
}
