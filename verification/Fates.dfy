/**
  What can still become of an address and of a user, in every state a run can reach: exactly
  when some later run gives the user preferences, and exactly when one gives the address a
  user. What a call that stopped half-way has spoilt for good follows from it. And a run in
  which a deletion makes a user out of a registration nobody verified.
*/
module Fates {
  import opened Jobs
  import opened Sets
  import opened Accounts
  import Otp

  // ----- preferences

  ghost predicate CanGetPrefs(s: State, u: nat) {
    exists more :: Legal(s, more) && !Unwritten(Run(s, more).t, u)
  }

  /** The user has its preferences, or exists and a call is about to write them. */
  ghost predicate PrefsAhead(s: State, u: nat) {
    !Unwritten(s.t, u) || (u in s.t.users && exists p :: Persisting(s, p, u))
  }

  lemma NoPrefsStep(s: State, l: Label, u: nat)
    requires TablesOk(s.t) && Enabled(s, l) && u < s.t.nextUser && !PrefsAhead(s, u)
    ensures !PrefsAhead(Next(s, l), u)
  {
    var t := Next(s, l);
    PersistersFrom(s, l);
    UserStep(s, l, u);
    NoPrefsRows(s, l, u);
    if u in t.t.users {
      forall p
        ensures !Persisting(t, p, u)
      {
        assert !Persisting(s, p, u);
      }
    }
  }

  lemma NoPrefsRows(s: State, l: Label, u: nat)
    requires Enabled(s, l) && !PrefsAhead(s, u)
    ensures Unwritten(Next(s, l).t, u)
  {
    if l.PersistPrefs? && s.calls[l.p].uid == u {
      assert Persisting(s, l.p, u);
    }
  }

  lemma {:induction false} NoPrefsEver(s: State, ls: seq<Label>, u: nat)
    requires Inv(s) && Legal(s, ls) && u < s.t.nextUser && !PrefsAhead(s, u)
    ensures Unwritten(Run(s, ls).t, u)
    decreases |ls|
  {
    if ls != [] {
      NoPrefsStep(s, ls[0], u);
      StepKeepsInv(s, ls[0]);
      UserStep(s, ls[0], u);
      NoPrefsEver(Next(s, ls[0]), ls[1..], u);
    }
  }

  lemma PrefsComing(s: State, u: nat)
    requires PrefsAhead(s, u)
    ensures CanGetPrefs(s, u)
  {
    if !Unwritten(s.t, u) {
      assert Legal(s, []) && Run(s, []) == s;
    } else {
      var p :| Persisting(s, p, u);
      assert Legal(s, []) && Run(s, []) == s;
      var more := AndThen(s, [], PersistPrefs(p, Done));
      var t := Run(s, more).t;
      assert s.t.nextPref in t.prefs && t.prefs[s.t.nextPref].userId == u;
    }
  }

  /** In every reachable state, a user there ever was still gets preferences in some later run
      exactly if it has them, or exists and a call is about to write them. */
  lemma PreferencesComeExactly(ls: seq<Label>, u: nat)
    requires Legal(INIT, ls) && u < Run(INIT, ls).t.nextUser
    ensures CanGetPrefs(Run(INIT, ls), u) <==> PrefsAhead(Run(INIT, ls), u)
  {
    var s := Run(INIT, ls);
    Reachable(ls);
    if PrefsAhead(s, u) {
      PrefsComing(s, u);
    } else {
      forall more | Legal(s, more)
        ensures Unwritten(Run(s, more).t, u)
      {
        NoPrefsEver(s, more, u);
      }
    }
  }

  /** So a verification that makes its user and does not write the preferences (a reply is lost,
      a statement is refused, or the call dies) leaves a user who never gets any. */
  lemma StoppedVerificationStrands(ls: seq<Label>, l: Label, u: nat)
    requires Legal(INIT, ls) && Enabled(Run(INIT, ls), l)
    requires
      var s := Run(INIT, ls);
      || (l.PersistUser? && l.o.ReplyLost? && InsertUser(s.t, s.calls[l.p].email).Some? && u == s.t.nextUser)
      || (l.PersistPrefs? && l.o.Refused? && s.calls[l.p].uid == u)
      || (l.Crash? && s.calls[l.p].Persisted? && s.calls[l.p].uid == u)
    ensures !CanGetPrefs(Next(Run(INIT, ls), l), u)
  {
    var more := AndThen(INIT, ls, l);
    Reachable(ls);
    StoppedBeforePrefs(Run(INIT, ls), l, u);
    PreferencesComeExactly(more, u);
  }

  lemma StoppedBeforePrefs(s: State, l: Label, u: nat)
    requires Inv(s) && Enabled(s, l)
    requires
      || (l.PersistUser? && l.o.ReplyLost? && InsertUser(s.t, s.calls[l.p].email).Some? && u == s.t.nextUser)
      || (l.PersistPrefs? && l.o.Refused? && s.calls[l.p].uid == u)
      || (l.Crash? && s.calls[l.p].Persisted? && s.calls[l.p].uid == u)
    ensures u < Next(s, l).t.nextUser && !PrefsAhead(Next(s, l), u)
  {
    var t := Next(s, l);
    PersistersFrom(s, l);
    if !l.PersistUser? {
      assert Persisting(s, l.p, u);
      assert Unwritten(s.t, u) && u in s.born;
    }
    forall p
      ensures !Persisting(t, p, u)
    {
      assert Persisting(s, p, u) ==> u in s.born;
    }
  }

  // ----- an address

  ghost predicate CanBeAdmitted(s: State, email: string) {
    exists more :: Legal(s, more) && HasUser(Run(s, more).t, email)
  }

  predicate Usable(s: State, email: string) {
    email in s.hashes && s.hashes[email].saved.Some? && s.hashes[email].count < Otp.MAX_TRIES
  }

  /** A call that will leave a verification row for the address. */
  predicate Registrant(s: State, call: Call, email: string) {
    call.Created? && call.email == email && email !in s.t.verification
  }

  /** There is a password to be let through with, or a call about to save one. */
  ghost predicate PasswordAhead(s: State, email: string) {
    || Usable(s, email)
    || exists p :: p in s.calls && (Registrant(s, s.calls[p], email) || (s.calls[p].Recorded? && s.calls[p].email == email))
  }

  /** A verification can begin, or has begun, or a call is about to make that possible. */
  ghost predicate FinderAhead(s: State, email: string) {
    || email in s.t.verification
    || exists p :: p in s.calls && (Registrant(s, s.calls[p], email) || (s.calls[p].Found? && s.calls[p].email == email))
  }

  /** The call holds a password it can be let through with, was let through, or is about to
      clear the staging row of a user that is gone. */
  predicate IsThrough(call: Call, email: string) {
    || (call.Loaded? && call.email == email && call.saved.Some?)
    || ((call.Matched? || call.Verified? || call.Preferred?) && call.email == email)
  }

  ghost predicate ThroughAhead(s: State, email: string) {
    exists p :: p in s.calls && IsThrough(s.calls[p], email)
  }

  /** Nothing stands in the way of a user for the address. */
  ghost predicate Admissible(s: State, email: string) {
    || HasUser(s.t, email)
    || email !in s.t.staging
    || ThroughAhead(s, email)
    || (PasswordAhead(s, email) && FinderAhead(s, email))
  }

  // ----- shut out is shut out

  lemma StagingStays(s: State, l: Label, email: string)
    requires Enabled(s, l) && email in s.t.staging && !ThroughAhead(s, email)
    ensures email in Next(s, l).t.staging
  {
    assert l.DeleteStaged? ==> !IsThrough(s.calls[l.p], email);
  }

  lemma NoUserStays(s: State, l: Label, email: string)
    requires Enabled(s, l) && !HasUser(s.t, email) && !ThroughAhead(s, email)
    ensures !HasUser(Next(s, l).t, email)
  {
    var t := Next(s, l);
    assert l.PersistUser? ==> !IsThrough(s.calls[l.p], email);
    forall u | u in t.t.users
      ensures t.t.users[u].email != email
    {
      assert u in s.t.users ==> s.t.users[u].email != email;
    }
  }

  /** A call whose user exists has an admitted address. */
  ghost predicate UsersKeepAddresses(s: State) {
    forall p :: p in s.calls && s.calls[p].Persisted? && s.calls[p].uid in s.t.users ==> HasUser(s.t, s.calls[p].email)
  }

  lemma FollowersKeepAddresses(s: State)
    requires BornOk(s) && FollowersOk(s)
    ensures UsersKeepAddresses(s)
  {
    forall p | p in s.calls && s.calls[p].Persisted? && s.calls[p].uid in s.t.users
      ensures HasUser(s.t, s.calls[p].email)
    {
      assert Accompanies(s, s.calls[p]);
    }
  }

  /** A call that is not let through stays outside, unless it finds a usable hash. */
  lemma NotThroughCall(s: State, l: Label, email: string, p: nat)
    requires Enabled(s, l) && UsersKeepAddresses(s) && !HasUser(s.t, email)
    requires p in s.calls && p in Next(s, l).calls && !IsThrough(s.calls[p], email)
    requires !(PasswordAhead(s, email) && FinderAhead(s, email))
    ensures !IsThrough(Next(s, l).calls[p], email)
  {
    assert l.LoadOtp? && p == l.p && s.calls[p].email == email ==> !Usable(s, email);
  }

  /** Only a usable hash lets a call through. */
  lemma NotThroughStep(s: State, l: Label, email: string)
    requires Enabled(s, l) && UsersKeepAddresses(s) && !HasUser(s.t, email) && !ThroughAhead(s, email)
    requires !(PasswordAhead(s, email) && FinderAhead(s, email))
    ensures !ThroughAhead(Next(s, l), email)
  {
    var t := Next(s, l);
    StepOthers(s, l);
    forall p | p in t.calls
      ensures !IsThrough(t.calls[p], email)
    {
      if p in s.calls {
        assert !IsThrough(s.calls[p], email);
        NotThroughCall(s, l, email, p);
      }
    }
  }

  /** Nobody can save a password where none could be saved. */
  lemma NoPasswordStep(s: State, l: Label, email: string)
    requires Enabled(s, l) && email in s.t.staging && !PasswordAhead(s, email) && !ThroughAhead(s, email)
    ensures !PasswordAhead(Next(s, l), email)
  {
    var t := Next(s, l);
    StepOthers(s, l);
    NotUsableStep(s, l, email);
    if email in s.t.verification {
      VerificationStays(s, l, email);
    }
    forall p | p in t.calls
      ensures !Registrant(t, t.calls[p], email) && !(t.calls[p].Recorded? && t.calls[p].email == email)
    {
      assert p in s.calls ==> !Registrant(s, s.calls[p], email) && !(s.calls[p].Recorded? && s.calls[p].email == email);
    }
  }

  lemma VerificationStays(s: State, l: Label, email: string)
    requires Enabled(s, l) && email in s.t.verification && !ThroughAhead(s, email)
    ensures email in Next(s, l).t.verification
  {
    assert l.DeleteStaged? ==> !IsThrough(s.calls[l.p], email);
  }

  lemma NotUsableStep(s: State, l: Label, email: string)
    requires Enabled(s, l) && !PasswordAhead(s, email)
    ensures !Usable(Next(s, l), email)
  {
    if l.SaveOtp? {
      assert s.calls[l.p].email != email;
    }
  }

  /** Nor can a verification begin where none could. */
  lemma NoFinderStep(s: State, l: Label, email: string)
    requires Enabled(s, l) && email in s.t.staging && !FinderAhead(s, email)
    ensures !FinderAhead(Next(s, l), email)
  {
    var t := Next(s, l);
    StepOthers(s, l);
    assert email !in t.t.verification by {
      if l.SaveVerification? {
        assert !Registrant(s, s.calls[l.p], email);
      }
    }
    forall p | p in t.calls
      ensures !Registrant(t, t.calls[p], email) && !(t.calls[p].Found? && t.calls[p].email == email)
    {
      assert p in s.calls ==> !Registrant(s, s.calls[p], email) && !(s.calls[p].Found? && s.calls[p].email == email);
    }
  }

  lemma ShutOutStep(s: State, l: Label, email: string)
    requires Inv(s) && Enabled(s, l) && !Admissible(s, email)
    ensures !Admissible(Next(s, l), email)
  {
    FollowersKeepAddresses(s);
    StagingStays(s, l, email);
    NoUserStays(s, l, email);
    NotThroughStep(s, l, email);
    if !PasswordAhead(s, email) {
      NoPasswordStep(s, l, email);
    } else {
      NoFinderStep(s, l, email);
    }
  }

  lemma {:induction false} ShutOutForever(s: State, ls: seq<Label>, email: string)
    requires Inv(s) && Legal(s, ls) && !Admissible(s, email)
    ensures !HasUser(Run(s, ls).t, email)
    decreases |ls|
  {
    if ls != [] {
      ShutOutStep(s, ls[0], email);
      StepKeepsInv(s, ls[0]);
      ShutOutForever(Next(s, ls[0]), ls[1..], email);
    }
  }

  // ----- and what is not shut out can come in

  lemma ComesAfter(s: State, l: Label, email: string)
    requires Enabled(s, l) && CanBeAdmitted(Next(s, l), email)
    ensures CanBeAdmitted(s, email)
  {
    var more :| Legal(Next(s, l), more) && HasUser(Run(Next(s, l), more).t, email);
    assert ([l] + more)[1..] == more;
    assert Legal(s, [l] + more);
  }

  lemma IsAdmitted(s: State, email: string)
    requires HasUser(s.t, email)
    ensures CanBeAdmitted(s, email)
  {
    assert Legal(s, []) && Run(s, []) == s;
  }

  /** Whoever was let through makes the user. */
  lemma VerifiedComes(s: State, p: nat, email: string)
    requires p in s.calls && s.calls[p].Verified? && s.calls[p].email == email
    requires email in s.t.staging && !HasUser(s.t, email)
    ensures CanBeAdmitted(s, email)
  {
    var l := PersistUser(p, Done);
    assert s.t.nextUser in Next(s, l).t.users && Next(s, l).t.users[s.t.nextUser].email == email;
    IsAdmitted(Next(s, l), email);
    ComesAfter(s, l, email);
  }

  lemma MatchedComes(s: State, p: nat, email: string)
    requires p in s.calls && s.calls[p].Matched? && s.calls[p].email == email
    requires email in s.t.staging && !HasUser(s.t, email)
    ensures CanBeAdmitted(s, email)
  {
    var l := FinishOtp(p, Done);
    VerifiedComes(Next(s, l), p, email);
    ComesAfter(s, l, email);
  }

  lemma LoadedComes(s: State, p: nat, email: string)
    requires p in s.calls && s.calls[p].Loaded? && s.calls[p].email == email && s.calls[p].saved.Some?
    requires email in s.t.staging && !HasUser(s.t, email)
    ensures CanBeAdmitted(s, email)
  {
    var l := CompareOtp(p, s.calls[p].saved.value.otp);
    MatchedComes(Next(s, l), p, email);
    ComesAfter(s, l, email);
  }

  lemma FoundComes(s: State, p: nat, email: string)
    requires p in s.calls && s.calls[p].Found? && s.calls[p].email == email && Usable(s, email)
    requires email in s.t.staging && !HasUser(s.t, email)
    ensures CanBeAdmitted(s, email)
  {
    var l := LoadOtp(p, Done);
    LoadedComes(Next(s, l), p, email);
    ComesAfter(s, l, email);
  }

  lemma UsableComes(s: State, email: string)
    requires Usable(s, email) && email in s.t.staging && !HasUser(s.t, email)
    requires email in s.t.verification || exists p :: p in s.calls && s.calls[p].Found? && s.calls[p].email == email
    ensures CanBeAdmitted(s, email)
  {
    if p :| p in s.calls && s.calls[p].Found? && s.calls[p].email == email {
      FoundComes(s, p, email);
    } else {
      var p := Unused(s.calls.Keys);
      var l := Verify(p, s.t.verification[email], email);
      FoundComes(Next(s, l), p, email);
      ComesAfter(s, l, email);
    }
  }

  lemma RecordedComes(s: State, p: nat, email: string)
    requires p in s.calls && s.calls[p].Recorded? && s.calls[p].email == email
    requires email in s.t.staging && !HasUser(s.t, email)
    requires email in s.t.verification || exists q :: q in s.calls && s.calls[q].Found? && s.calls[q].email == email
    ensures CanBeAdmitted(s, email)
  {
    var l := SaveOtp(p, "1", Done);
    var t := Next(s, l);
    if q :| q in s.calls && s.calls[q].Found? && s.calls[q].email == email {
      assert q in t.calls && t.calls[q].Found? && t.calls[q].email == email;
    }
    UsableComes(t, email);
    ComesAfter(s, l, email);
  }

  lemma RegistrantComes(s: State, p: nat, email: string)
    requires p in s.calls && Registrant(s, s.calls[p], email) && email in s.t.staging && !HasUser(s.t, email)
    ensures CanBeAdmitted(s, email)
  {
    var l := SaveVerification(p, "r", Done);
    RecordedComes(Next(s, l), p, email);
    ComesAfter(s, l, email);
  }

  /** An address without a staging row can register afresh. */
  lemma UnstagedComes(s: State, email: string)
    requires email !in s.t.staging && email !in s.t.verification && !HasUser(s.t, email)
    ensures CanBeAdmitted(s, email)
  {
    var p := Unused(s.calls.Keys);
    var l0, l1 := Register(p, Registration(email, "", []), Done), CreateUser(p, Done);
    var a := Next(s, l0);
    var b := Next(a, l1);
    assert a.calls[p] == Checked(Registration(email, "", [])) && a.t == s.t;
    assert b.calls[p] == Created(email, s.t.nextStaged) && b.t.verification == s.t.verification && b.t.users == s.t.users;
    RegistrantComes(b, p, email);
    ComesAfter(a, l1, email);
    ComesAfter(s, l0, email);
  }

  lemma ClearedComes(s: State, p: nat, email: string)
    requires p in s.calls && s.calls[p].Preferred? && s.calls[p].email == email
    requires email in s.t.staging && !HasUser(s.t, email)
    ensures CanBeAdmitted(s, email)
  {
    var l := DeleteStaged(p, Done);
    UnstagedComes(Next(s, l), email);
    ComesAfter(s, l, email);
  }

  lemma BothComes(s: State, email: string)
    requires email in s.t.staging && !HasUser(s.t, email) && PasswordAhead(s, email) && FinderAhead(s, email)
    ensures CanBeAdmitted(s, email)
  {
    if p :| p in s.calls && Registrant(s, s.calls[p], email) {
      RegistrantComes(s, p, email);
    } else if Usable(s, email) {
      UsableComes(s, email);
    } else {
      var p :| p in s.calls && s.calls[p].Recorded? && s.calls[p].email == email;
      RecordedComes(s, p, email);
    }
  }

  lemma AdmissibleComes(s: State, email: string)
    requires s.t.verification.Keys <= s.t.staging.Keys && Admissible(s, email)
    ensures CanBeAdmitted(s, email)
  {
    if HasUser(s.t, email) {
      IsAdmitted(s, email);
    } else if email !in s.t.staging {
      UnstagedComes(s, email);
    } else if p :| p in s.calls && IsThrough(s.calls[p], email) {
      match s.calls[p]
      case Loaded(_, _) => LoadedComes(s, p, email);
      case Matched(_, _) => MatchedComes(s, p, email);
      case Verified(_, _) => VerifiedComes(s, p, email);
      case Preferred(_, _, _) => ClearedComes(s, p, email);
    } else {
      BothComes(s, email);
    }
  }

  /** In every reachable state, some later run gives the address a user exactly if it has one,
      or has no staging row, or a call is past the password, or there are (or are about to be)
      both a password to be let through with and a verification to use it in. */
  lemma AdmittedExactly(ls: seq<Label>, email: string)
    requires Legal(INIT, ls)
    ensures CanBeAdmitted(Run(INIT, ls), email) <==> Admissible(Run(INIT, ls), email)
  {
    var s := Run(INIT, ls);
    Reachable(ls);
    if Admissible(s, email) {
      AdmissibleComes(s, email);
    } else {
      forall more | Legal(s, more)
        ensures !HasUser(Run(s, more).t, email)
      {
        ShutOutForever(s, more, email);
      }
    }
  }

  /** So a registration that made its staging row and stops before its password is saved (a
      statement fails, a reply is lost, or the call dies) shuts its address out for good, unless
      the address was admitted before. */
  lemma StoppedRegistrationBlocks(ls: seq<Label>, l: Label)
    requires Legal(INIT, ls) && Enabled(Run(INIT, ls), l)
    requires
      || (l.CreateUser? && l.o.ReplyLost? && Run(INIT, ls).calls[l.p].reg.email !in Run(INIT, ls).t.staging)
      || (l.SaveVerification? && !l.o.Ok())
      || (l.SaveOtp? && l.o.Refused?)
      || (l.Crash? && (Run(INIT, ls).calls[l.p].Created? || Run(INIT, ls).calls[l.p].Recorded?))
    requires !Admitted(Run(INIT, ls), AddressOf(Run(INIT, ls).calls[l.p]))
    ensures !CanBeAdmitted(Next(Run(INIT, ls), l), AddressOf(Run(INIT, ls).calls[l.p]))
  {
    var more := AndThen(INIT, ls, l);
    Reachable(ls);
    Reachable(more);
    AdmittedExactly(more, AddressOf(Run(INIT, ls).calls[l.p]));
    StoppedIsShutOut(Run(INIT, ls), l);
  }

  function AddressOf(call: Call): string {
    if call.Checked? then call.reg.email else call.email
  }

  /** Without a user, a deletion and a saved password, nobody is through. */
  lemma NobodyIsThrough(s: State, email: string)
    requires KnownRows(s) && HashesOk(s) && OriginOk(s) && !Admitted(s, email)
    requires forall i :: 0 <= i < |s.otps| ==> s.otps[i].email != email
    ensures !ThroughAhead(s, email) && !Usable(s, email)
  {
    forall p | p in s.calls
      ensures !IsThrough(s.calls[p], email)
    {
      if s.calls[p].Loaded? {
        assert SavedOk(s.otps, s.calls[p].email, s.calls[p].saved);
      }
    }
    assert email in s.hashes ==> SavedOk(s.otps, email, s.hashes[email].saved);
  }

  lemma StoppedIsShutOut(s: State, l: Label)
    requires Inv(s) && Enabled(s, l) && Inv(Next(s, l))
    requires
      || (l.CreateUser? && l.o.ReplyLost? && s.calls[l.p].reg.email !in s.t.staging)
      || (l.SaveVerification? && !l.o.Ok())
      || (l.SaveOtp? && l.o.Refused?)
      || (l.Crash? && (s.calls[l.p].Created? || s.calls[l.p].Recorded?))
    requires !Admitted(s, AddressOf(s.calls[l.p]))
    ensures !Admissible(Next(s, l), AddressOf(s.calls[l.p]))
  {
    var t := Next(s, l);
    var email := AddressOf(s.calls[l.p]);
    NoUserMade(s, l, email);
    OnlyRegistrant(s, l);
    NobodyIsThrough(t, email);
  }

  lemma NoUserMade(s: State, l: Label, email: string)
    requires Enabled(s, l) && !l.PersistUser? && !l.DeleteUser? && !Admitted(s, email)
    ensures !Admitted(Next(s, l), email)
  {
    StepFrame(s, l);
  }

  /** The stopped call was the only one registering, and no password was saved. */
  lemma OnlyRegistrant(s: State, l: Label)
    requires Inv(s) && Enabled(s, l)
    requires
      || (l.CreateUser? && l.o.ReplyLost? && s.calls[l.p].reg.email !in s.t.staging)
      || (l.SaveVerification? && !l.o.Ok())
      || (l.SaveOtp? && l.o.Refused?)
      || (l.Crash? && (s.calls[l.p].Created? || s.calls[l.p].Recorded?))
    requires !Admitted(s, AddressOf(s.calls[l.p]))
    ensures
      var t, email := Next(s, l), AddressOf(s.calls[l.p]);
      && email in t.t.staging
      && (forall i :: 0 <= i < |t.otps| ==> t.otps[i].email != email)
      && (forall p :: p in t.calls && (t.calls[p].Created? || t.calls[p].Recorded?) ==> t.calls[p].email != email)
  {
    var t := Next(s, l);
    var email := AddressOf(s.calls[l.p]);
    StepFrame(s, l);
    Registrants(s, l);
    if !l.CreateUser? {
      assert Registering(s, l.p, s.calls[l.p].sid);
      assert Standing(s, s.calls[l.p].sid);
    }
    forall i | 0 <= i < |s.otps|
      ensures s.otps[i].email != email
    {
      assert Standing(s, s.otps[i].sid);
    }
    forall p | p in t.calls && (t.calls[p].Created? || t.calls[p].Recorded?)
      ensures t.calls[p].email != email
    {
      var sid := t.calls[p].sid;
      assert Registering(t, p, sid);
      assert Registering(s, p, sid) ==> Standing(s, sid);
    }
  }

  // ----- deleting a user lets two registrations of one address mix

  const FIRST := Registration("a@b.c", "old", [])
  const SECOND := Registration("a@b.c", "new", [])
  const SAVED := SavedOtp("a@b.c", 0, "1")

  /** The first registration is complete. */
  lemma FirstRegistered() returns (ls: seq<Label>)
    ensures Legal(INIT, ls)
    ensures
      var s := Run(INIT, ls);
      && s.t == Tables(map[FIRST.email := Staged(0, FIRST)], 1, map[FIRST.email := "r"], map[], 0, map[], 0)
      && s.calls == map[] && s.hashes == map[FIRST.email := Hash(Some(SAVED), 0)]
      && s.filed == map[0 := FIRST] && s.born == map[]
  {
    ls := AndThen(INIT, [], Register(0, FIRST, Done));
    ls := AndThen(INIT, ls, CreateUser(0, Done));
    ls := AndThen(INIT, ls, SaveVerification(0, "r", Done));
    ls := AndThen(INIT, ls, SaveOtp(0, "1", Done));
  }

  /** Two calls have read its password before either clears it. */
  lemma BothLoaded() returns (ls: seq<Label>)
    ensures Legal(INIT, ls)
    ensures
      var s := Run(INIT, ls);
      && s.t == Tables(map[FIRST.email := Staged(0, FIRST)], 1, map[FIRST.email := "r"], map[], 0, map[], 0)
      && s.calls == map[1 := Loaded(FIRST.email, Some(SAVED)), 2 := Loaded(FIRST.email, Some(SAVED))]
      && s.filed == map[0 := FIRST] && s.born == map[]
  {
    ls := FirstRegistered();
    ls := AndThen(INIT, ls, Verify(1, "r", FIRST.email));
    ls := AndThen(INIT, ls, LoadOtp(1, Done));
    ls := AndThen(INIT, ls, Verify(2, "r", FIRST.email));
    ls := AndThen(INIT, ls, LoadOtp(2, Done));
  }

  /** Both are let through. */
  lemma BothVerified() returns (ls: seq<Label>)
    ensures Legal(INIT, ls)
    ensures
      var s := Run(INIT, ls);
      && s.t == Tables(map[FIRST.email := Staged(0, FIRST)], 1, map[FIRST.email := "r"], map[], 0, map[], 0)
      && s.calls == map[1 := Verified(FIRST.email, 0), 2 := Verified(FIRST.email, 0)]
      && s.filed == map[0 := FIRST] && s.born == map[]
  {
    ls := BothLoaded();
    ls := AndThen(INIT, ls, CompareOtp(1, "1"));
    ls := AndThen(INIT, ls, FinishOtp(1, Done));
    ls := AndThen(INIT, ls, CompareOtp(2, "1"));
    ls := AndThen(INIT, ls, FinishOtp(2, Done));
  }

  /** One of them has made the user. */
  lemma FirstUserMade() returns (ls: seq<Label>)
    ensures Legal(INIT, ls)
    ensures
      var s := Run(INIT, ls);
      && s.t.staging == map[FIRST.email := Staged(0, FIRST)] && s.t.nextStaged == 1
      && s.t.users == map[0 := User(FIRST.email, FIRST.password)] && s.t.nextUser == 1
      && s.calls == map[1 := Preferred(FIRST.email, 0, 0), 2 := Verified(FIRST.email, 0)] && s.filed == map[0 := FIRST]
  {
    ls := BothVerified();
    ls := AndThen(INIT, ls, PersistUser(1, Done));
    ls := AndThen(INIT, ls, PersistPrefs(1, Done));
  }

  /** That user is deleted again. */
  lemma FirstUserDeleted() returns (ls: seq<Label>)
    ensures Legal(INIT, ls)
    ensures
      var s := Run(INIT, ls);
      && s.t.staging == map[] && s.t.users == map[] && s.t.nextStaged == 1 && s.t.nextUser == 1
      && s.calls == map[2 := Verified(FIRST.email, 0)] && s.filed == map[0 := FIRST]
  {
    ls := FirstUserMade();
    ls := AndThen(INIT, ls, DeleteStaged(1, Done));
    ls := AndThen(INIT, ls, DeleteUser(0, Done));
  }

  /** The address registers again. */
  lemma SecondStaged() returns (ls: seq<Label>)
    ensures Legal(INIT, ls)
    ensures
      var s := Run(INIT, ls);
      && s.t.staging == map[FIRST.email := Staged(1, SECOND)] && s.t.users == map[] && s.t.nextUser == 1
      && 2 in s.calls && s.calls[2] == Verified(FIRST.email, 0) && 3 in s.calls && s.calls[3] == Created(FIRST.email, 1)
      && s.filed == map[0 := FIRST, 1 := SECOND]
  {
    ls := FirstUserDeleted();
    ls := AndThen(INIT, ls, Register(3, SECOND, Done));
    ls := AndThen(INIT, ls, CreateUser(3, Done));
  }

  /** The second verified call then makes a user from a registration nobody has verified. */
  lemma DeletionMixesRegistrations() returns (ls: seq<Label>, u: nat)
    ensures Legal(INIT, ls) && u in Run(INIT, ls).t.users
    ensures
      var s := Run(INIT, ls);
      && u in s.born && s.born[u].verified in s.filed && s.born[u].row != s.born[u].verified
      && s.t.users[u].password != s.filed[s.born[u].verified].password
      && forall i :: 0 <= i < |s.otps| ==> s.otps[i].sid != s.born[u].row
  {
    ls := SecondStaged();
    var s := Run(INIT, ls);
    Reachable(ls);
    UnsavedSecond(s);
    u := 1;
    ls := AndThen(INIT, ls, PersistUser(2, Done));
  }

  lemma UnsavedSecond(s: State)
    requires OtpsOk(s) && 3 in s.calls && s.calls[3] == Created(FIRST.email, 1)
    ensures Unsaved(s.otps, 1)
  {
    assert Registering(s, 3, 1);
  }
}
