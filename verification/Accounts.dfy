/**
  Registration and verification over the SQL tables, with any number of calls interleaved
  and any statement failing: who becomes a user, with which data, and what can no longer
  happen after a call has stopped half-way.
*/
module Accounts {
  import opened Jobs
  import opened Sets
  import Otp

  datatype Registration = Registration(email: string, password: string, prefs: seq<string>)
  datatype Staged = Staged(id: nat, reg: Registration)
  datatype User = User(email: string, password: string)
  datatype PrefRow = PrefRow(userId: nat, prefs: seq<string>)

  /** staging_users and email_verification are keyed by their UNIQUE email; the counters are
      the SERIAL sequences, which never hand out a number twice. */
  datatype Tables = Tables(
    staging: map<string, Staged>,
    nextStaged: nat,
    verification: map<string, string>,
    users: map<nat, User>,
    nextUser: nat,
    prefs: map<nat, PrefRow>,
    nextPref: nat)

  const EMPTY := Tables(map[], 0, map[], map[], 0, map[], 0)

  // ----- the statements; None when a constraint or the RETURNING clause finds fault

  predicate HasUser(t: Tables, email: string) {
    exists u :: u in t.users && t.users[u].email == email
  }

  function InsertStaged(t: Tables, reg: Registration): Option<Tables> {
    if reg.email in t.staging then None
    else Some(t.(staging := t.staging[reg.email := Staged(t.nextStaged, reg)], nextStaged := t.nextStaged + 1))
  }

  function InsertVerification(t: Tables, request: string, email: string): Option<Tables> {
    if email in t.verification || email !in t.staging then None
    else Some(t.(verification := t.verification[email := request]))
  }

  /** INSERT INTO users SELECT ... FROM staging_users */
  function InsertUser(t: Tables, email: string): Option<Tables> {
    if email !in t.staging || HasUser(t, email) then None
    else
      Some(t.(users := t.users[t.nextUser := User(email, t.staging[email].reg.password)], nextUser := t.nextUser + 1))
  }

  function InsertPrefs(t: Tables, u: nat, prefs: seq<string>): Option<Tables> {
    if u !in t.users then None
    else Some(t.(prefs := t.prefs[t.nextPref := PrefRow(u, prefs)], nextPref := t.nextPref + 1))
  }

  /** The verification row goes with the staging row. */
  function RemoveStaged(t: Tables, email: string): Option<Tables> {
    if email !in t.staging then None
    else Some(t.(staging := t.staging - {email}, verification := t.verification - {email}))
  }

  /** The preferences go with the user. */
  function RemoveUser(t: Tables, u: nat): Option<Tables> {
    if u !in t.users then None
    else Some(t.(users := t.users - {u}, prefs := map k | k in t.prefs && t.prefs[k].userId != u :: t.prefs[k]))
  }

  function After(t: Tables, result: Option<Tables>, o: Outcome): Tables {
    if result.Some? && o.Applied() then result.value else t
  }

  // ----- interleaved calls

  /** One SaveOTP, and the staging row its registration had made. */
  datatype SavedOtp = SavedOtp(email: string, sid: nat, otp: string)

  /** The Redis hash of an address; a late increment can recreate it without a password. */
  datatype Hash = Hash(saved: Option<SavedOtp>, count: int)

  /** RegisterUser after its look-up, its staging row and its verification row; VerifyUser
      after it found the address, read the hash, compared, was let through, and made the user
      and the preferences. */
  datatype Call =
    | Checked(reg: Registration)
    | Created(email: string, sid: nat)
    | Recorded(email: string, sid: nat)
    | Found(email: string)
    | Loaded(email: string, saved: Option<SavedOtp>)
    | Blocked(email: string)
    | Mismatched(email: string)
    | Matched(email: string, sid: nat)
    | Verified(email: string, sid: nat)
    | Persisted(email: string, uid: nat, sid: nat, prefs: seq<string>)
    | Preferred(email: string, uid: nat, sid: nat)

  /** The staging row a user was copied from, and the one whose password was verified. */
  datatype Birth = Birth(row: nat, verified: nat)

  /** `filed` are all staging rows ever, `otps` all passwords ever saved, `born` all users ever,
      `removed` the addresses of deleted users. */
  datatype State = State(
    t: Tables,
    hashes: map<string, Hash>,
    calls: map<nat, Call>,
    filed: map<nat, Registration>,
    otps: seq<SavedOtp>,
    born: map<nat, Birth>,
    removed: set<string>)

  const INIT := State(EMPTY, map[], map[], map[], [], map[], {})

  datatype Label =
    | Register(p: nat, reg: Registration, o: Outcome)
    | CreateUser(p: nat, o: Outcome)
    | SaveVerification(p: nat, request: string, o: Outcome)
    | SaveOtp(p: nat, otp: string, o: Outcome)
    | Verify(p: nat, request: string, email: string)
    | LoadOtp(p: nat, o: Outcome)
    | CompareOtp(p: nat, sent: string)
    | FinishOtp(p: nat, o: Outcome)
    | PersistUser(p: nat, o: Outcome)
    | PersistPrefs(p: nat, o: Outcome)
    | DeleteStaged(p: nat, o: Outcome)
    | DeleteUser(u: nat, o: Outcome)
    | ExpireOtp(email: string)
    | Crash(p: nat)

  /** request_id is not unique: Verify may find any row with it. */
  predicate Enabled(s: State, l: Label) {
    match l
    case Register(p, _, _) => p !in s.calls
    case CreateUser(p, _) => p in s.calls && s.calls[p].Checked?
    case SaveVerification(p, _, _) => p in s.calls && s.calls[p].Created?
    case SaveOtp(p, _, _) => p in s.calls && s.calls[p].Recorded?
    case Verify(p, request, email) =>
      p !in s.calls && email in s.t.verification && s.t.verification[email] == request
    case LoadOtp(p, _) => p in s.calls && s.calls[p].Found?
    case CompareOtp(p, _) => p in s.calls && s.calls[p].Loaded?
    case FinishOtp(p, _) => p in s.calls && (s.calls[p].Blocked? || s.calls[p].Mismatched? || s.calls[p].Matched?)
    case PersistUser(p, _) => p in s.calls && s.calls[p].Verified?
    case PersistPrefs(p, _) => p in s.calls && s.calls[p].Persisted?
    case DeleteStaged(p, _) => p in s.calls && s.calls[p].Preferred?
    case DeleteUser(_, _) => true
    case ExpireOtp(_) => true
    case Crash(p) => p in s.calls
  }

  /** The step's own call; the last two labels below have none. */
  predicate Acts(l: Label, p: nat) {
    !l.DeleteUser? && !l.ExpireOtp? && l.p == p
  }

  function Continue(calls: map<nat, Call>, p: nat, ok: bool, call: Call): map<nat, Call> {
    if ok then calls[p := call] else calls - {p}
  }

  function NextCreate(s: State, l: Label): State
    requires l.CreateUser? && Enabled(s, l)
  {
    var reg := s.calls[l.p].reg;
    var result := InsertStaged(s.t, reg);
    var applied := result.Some? && l.o.Applied();
    s.(t := After(s.t, result, l.o),
       calls := Continue(s.calls, l.p, result.Some? && l.o.Ok(), Created(reg.email, s.t.nextStaged)),
       filed := if applied then s.filed[s.t.nextStaged := reg] else s.filed)
  }

  function NextPersist(s: State, l: Label): State
    requires l.PersistUser? && Enabled(s, l)
  {
    var call := s.calls[l.p];
    var result := InsertUser(s.t, call.email);
    if result.None? then s.(calls := s.calls - {l.p})
    else
      var row := s.t.staging[call.email];
      s.(t := After(s.t, result, l.o),
         calls := Continue(s.calls, l.p, l.o.Ok(), Persisted(call.email, s.t.nextUser, call.sid, row.reg.prefs)),
         born := if l.o.Applied() then s.born[s.t.nextUser := Birth(row.id, call.sid)] else s.born)
  }

  function NextSaveOtp(s: State, l: Label): State
    requires l.SaveOtp? && Enabled(s, l)
  {
    var call := s.calls[l.p];
    var saved := SavedOtp(call.email, call.sid, l.otp);
    s.(calls := s.calls - {l.p},
       hashes := if l.o.Applied() then s.hashes[call.email := Hash(Some(saved), 0)] else s.hashes,
       otps := if l.o.Applied() then s.otps + [saved] else s.otps)
  }

  /** HGETALL and the check of the counter. */
  function NextLoad(s: State, l: Label): State
    requires l.LoadOtp? && Enabled(s, l)
  {
    var email := s.calls[l.p].email;
    if !l.o.Ok() || email !in s.hashes then s.(calls := s.calls - {l.p})
    else if s.hashes[email].count >= Otp.MAX_TRIES then s.(calls := s.calls[l.p := Blocked(email)])
    else s.(calls := s.calls[l.p := Loaded(email, s.hashes[email].saved)])
  }

  function OtpText(saved: Option<SavedOtp>): Option<string> {
    if saved.Some? then Some(saved.value.otp) else None
  }

  function NextCompare(s: State, l: Label): State
    requires l.CompareOtp? && Enabled(s, l)
  {
    var call := s.calls[l.p];
    s.(calls := s.calls[l.p :=
      if Otp.Verifies(OtpText(call.saved), l.sent) then Matched(call.email, call.saved.value.sid) else Mismatched(call.email)])
  }

  /** HINCRBY creates what is missing. */
  function Counted(hashes: map<string, Hash>, email: string): map<string, Hash> {
    hashes[email := if email in hashes then hashes[email].(count := hashes[email].count + 1) else Hash(None, 1)]
  }

  /** DEL or HINCRBY; whoever matched goes on whatever DEL answers. */
  function NextFinish(s: State, l: Label): State
    requires l.FinishOtp? && Enabled(s, l)
  {
    var call := s.calls[l.p];
    s.(hashes := if !l.o.Applied() then s.hashes
                 else if call.Mismatched? then Counted(s.hashes, call.email)
                 else s.hashes - {call.email},
       calls := Continue(s.calls, l.p, call.Matched?, Verified(call.email, if call.Matched? then call.sid else 0)))
  }

  /** A look-up that fails counts as "no such user" for a registration. */
  function Next(s: State, l: Label): State
    requires Enabled(s, l)
  {
    match l
    case Register(p, reg, o) =>
      if o.Ok() && HasUser(s.t, reg.email) then s else s.(calls := s.calls[p := Checked(reg)])
    case CreateUser(_, _) => NextCreate(s, l)
    case SaveVerification(p, request, o) =>
      var call := s.calls[p];
      var result := InsertVerification(s.t, request, call.email);
      s.(t := After(s.t, result, o),
         calls := Continue(s.calls, p, result.Some? && o.Ok(), Recorded(call.email, call.sid)))
    case SaveOtp(_, _, _) => NextSaveOtp(s, l)
    case Verify(p, _, email) => s.(calls := s.calls[p := Found(email)])
    case LoadOtp(_, _) => NextLoad(s, l)
    case CompareOtp(_, _) => NextCompare(s, l)
    case FinishOtp(_, _) => NextFinish(s, l)
    case PersistUser(_, _) => NextPersist(s, l)
    case PersistPrefs(p, o) =>
      var call := s.calls[p];
      var result := InsertPrefs(s.t, call.uid, call.prefs);
      s.(t := After(s.t, result, o),
         calls := Continue(s.calls, p, result.Some? && o.Ok(), Preferred(call.email, call.uid, call.sid)))
    case DeleteStaged(p, o) =>
      s.(t := After(s.t, RemoveStaged(s.t, s.calls[p].email), o), calls := s.calls - {p})
    case DeleteUser(u, o) =>
      s.(t := After(s.t, RemoveUser(s.t, u), o),
         removed := if u in s.t.users && o.Applied() then s.removed + {s.t.users[u].email} else s.removed)
    case ExpireOtp(email) => s.(hashes := s.hashes - {email})
    case Crash(p) => s.(calls := s.calls - {p})
  }

  ghost predicate Legal(s: State, ls: seq<Label>)
    decreases |ls|
  {
    ls == [] || (Enabled(s, ls[0]) && Legal(Next(s, ls[0]), ls[1..]))
  }

  ghost function Run(s: State, ls: seq<Label>): State
    requires Legal(s, ls)
    decreases |ls|
  {
    if ls == [] then s else Run(Next(s, ls[0]), ls[1..])
  }

  // ----- what every step keeps

  ghost predicate TablesOk(t: Tables) {
    && (forall u, v :: u in t.users && v in t.users && t.users[u].email == t.users[v].email ==> u == v)
    && (forall u :: u in t.users ==> u < t.nextUser)
    && (forall k :: k in t.prefs ==> k < t.nextPref && t.prefs[k].userId in t.users)
    && (forall e :: e in t.staging ==> t.staging[e].reg.email == e && t.staging[e].id < t.nextStaged)
    && t.verification.Keys <= t.staging.Keys
  }

  ghost predicate FiledOk(s: State) {
    && (forall sid :: sid in s.filed ==> sid < s.t.nextStaged)
    && (forall e :: e in s.t.staging ==>
          s.t.staging[e].id in s.filed && s.filed[s.t.staging[e].id] == s.t.staging[e].reg)
  }

  ghost predicate Registering(s: State, p: nat, sid: nat) {
    p in s.calls && (s.calls[p].Created? || s.calls[p].Recorded?) && s.calls[p].sid == sid
  }

  ghost predicate Unsaved(otps: seq<SavedOtp>, sid: nat) {
    forall i :: 0 <= i < |otps| ==> otps[i].sid != sid
  }

  /** A staging row has at most one registration at work or one saved password, never both. */
  ghost predicate OtpsOk(s: State) {
    && (forall i :: 0 <= i < |s.otps| ==>
          s.otps[i].sid in s.filed && s.filed[s.otps[i].sid].email == s.otps[i].email)
    && (forall i, j :: 0 <= i < j < |s.otps| ==> s.otps[i].sid != s.otps[j].sid)
    && (forall p, sid :: Registering(s, p, sid) ==>
          sid in s.filed && s.filed[sid].email == s.calls[p].email && Unsaved(s.otps, sid))
    && (forall p, q, sid :: Registering(s, p, sid) && Registering(s, q, sid) ==> p == q)
  }

  ghost predicate SavedFor(otps: seq<SavedOtp>, email: string, sid: nat) {
    exists i :: 0 <= i < |otps| && otps[i].email == email && otps[i].sid == sid
  }

  /** A password somebody may be let through with was saved for that address. */
  ghost predicate SavedOk(otps: seq<SavedOtp>, email: string, saved: Option<SavedOtp>) {
    saved.Some? ==> saved.value in otps && saved.value.email == email
  }

  ghost predicate HashesOk(s: State) {
    && (forall e :: e in s.hashes ==> SavedOk(s.otps, e, s.hashes[e].saved))
    && (forall p :: p in s.calls && s.calls[p].Loaded? ==> SavedOk(s.otps, s.calls[p].email, s.calls[p].saved))
    && (forall p :: p in s.calls && (s.calls[p].Matched? || s.calls[p].Verified?) ==>
          SavedFor(s.otps, s.calls[p].email, s.calls[p].sid))
  }

  ghost predicate BirthOk(s: State, b: Birth) {
    && b.row in s.filed
    && SavedFor(s.otps, s.filed[b.row].email, b.verified)
  }

  ghost predicate BornOk(s: State) {
    && (forall u :: u in s.born ==> u < s.t.nextUser && BirthOk(s, s.born[u]))
    && (forall u :: u in s.t.users ==>
          && u in s.born
          && s.t.users[u] == User(s.filed[s.born[u].row].email, s.filed[s.born[u].row].password))
  }

  ghost predicate Persisting(s: State, p: nat, u: nat) {
    p in s.calls && s.calls[p].Persisted? && s.calls[p].uid == u
  }

  ghost predicate Unwritten(t: Tables, u: nat) {
    forall k :: k in t.prefs ==> t.prefs[k].userId != u
  }

  /** A user has at most one row of preferences or one call about to write it, never both. */
  ghost predicate PrefsOk(s: State)
    requires forall u :: u in s.born ==> s.born[u].row in s.filed
  {
    && (forall k, m :: k in s.t.prefs && m in s.t.prefs && s.t.prefs[k].userId == s.t.prefs[m].userId ==> k == m)
    && (forall k :: k in s.t.prefs ==>
          s.t.prefs[k].userId in s.born && s.t.prefs[k].prefs == s.filed[s.born[s.t.prefs[k].userId].row].prefs)
    && (forall p, u :: Persisting(s, p, u) ==>
          u in s.born && s.calls[p].prefs == s.filed[s.born[u].row].prefs && Unwritten(s.t, u))
    && (forall p, q, u :: Persisting(s, p, u) && Persisting(s, q, u) ==> p == q)
  }

  ghost predicate Standing(s: State, sid: nat)
    requires sid in s.filed
  {
    var email := s.filed[sid].email;
    email in s.removed || HasUser(s.t, email) || (email in s.t.staging && s.t.staging[email].id == sid)
  }

  /** A call past PersistUser goes with its user: the one its verification made. */
  ghost predicate Accompanies(s: State, call: Call) {
    call.Persisted? || call.Preferred? ==>
      && call.uid in s.born && s.born[call.uid].verified == call.sid
      && s.born[call.uid].row in s.filed && s.filed[s.born[call.uid].row].email == call.email
      && (call.Preferred? && call.uid in s.t.users ==> !Unwritten(s.t, call.uid))
  }

  ghost predicate FollowersOk(s: State) {
    forall p :: p in s.calls ==> Accompanies(s, s.calls[p])
  }

  ghost predicate Admitted(s: State, email: string) {
    email in s.removed || HasUser(s.t, email)
  }

  /** Unless users of an address are deleted, a staging row leaves only for its user. */
  ghost predicate OriginOk(s: State)
    requires forall u :: u in s.born ==> s.born[u].row in s.filed
  {
    && (forall sid :: sid in s.filed ==> Standing(s, sid))
    && (forall p :: p in s.calls && (s.calls[p].Persisted? || s.calls[p].Preferred?) ==> Admitted(s, s.calls[p].email))
    && (forall u :: u in s.born && s.filed[s.born[u].row].email !in s.removed ==> s.born[u].row == s.born[u].verified)
  }

  ghost predicate Inv(s: State) {
    TablesOk(s.t) && FiledOk(s) && OtpsOk(s) && HashesOk(s) && BornOk(s) && PrefsOk(s) && FollowersOk(s) && OriginOk(s)
  }

  lemma StagingStatements(t: Tables, reg: Registration, request: string, email: string)
    requires TablesOk(t)
    ensures InsertStaged(t, reg).Some? ==> TablesOk(InsertStaged(t, reg).value)
    ensures InsertVerification(t, request, email).Some? ==> TablesOk(InsertVerification(t, request, email).value)
    ensures RemoveStaged(t, email).Some? ==> TablesOk(RemoveStaged(t, email).value)
  {
  }

  lemma UserStatements(t: Tables, email: string)
    requires TablesOk(t)
    ensures InsertUser(t, email).Some? ==> TablesOk(InsertUser(t, email).value)
  {
  }

  lemma PrefStatements(t: Tables, u: nat, prefs: seq<string>)
    requires TablesOk(t)
    ensures InsertPrefs(t, u, prefs).Some? ==> TablesOk(InsertPrefs(t, u, prefs).value)
  {
  }

  lemma RemoveUserStatement(t: Tables, u: nat)
    requires TablesOk(t)
    ensures RemoveUser(t, u).Some? ==> TablesOk(RemoveUser(t, u).value)
  {
    if u in t.users {
      var r := RemoveUser(t, u).value;
      assert forall k :: k in r.prefs ==> k in t.prefs && r.prefs[k] == t.prefs[k] && t.prefs[k].userId != u;
      assert forall v :: v in r.users ==> v in t.users && r.users[v] == t.users[v];
    }
  }

  lemma TablesStep(s: State, l: Label)
    requires TablesOk(s.t) && Enabled(s, l)
    ensures TablesOk(Next(s, l).t)
  {
    match l
    case CreateUser(p, _) => StagingStatements(s.t, s.calls[p].reg, "", "");
    case SaveVerification(p, request, _) => StagingStatements(s.t, Registration("", "", []), request, s.calls[p].email);
    case PersistUser(p, _) => UserStatements(s.t, s.calls[p].email);
    case PersistPrefs(p, _) => PrefStatements(s.t, s.calls[p].uid, s.calls[p].prefs);
    case DeleteStaged(p, _) => StagingStatements(s.t, Registration("", "", []), "", s.calls[p].email);
    case DeleteUser(u, _) => RemoveUserStatement(s.t, u);
    case _ =>
  }

  lemma FiledStep(s: State, l: Label)
    requires TablesOk(s.t) && FiledOk(s) && Enabled(s, l)
    ensures FiledOk(Next(s, l))
  {
    var t := Next(s, l);
    if l.CreateUser? {
      forall e | e in t.t.staging
        ensures t.t.staging[e].id in t.filed && t.filed[t.t.staging[e].id] == t.t.staging[e].reg
      {
      }
    } else {
      assert t.filed == s.filed && t.t.nextStaged == s.t.nextStaged;
      assert forall e :: e in t.t.staging ==> e in s.t.staging && t.t.staging[e] == s.t.staging[e];
    }
  }

  /** What the other calls see of a step. */
  ghost predicate OthersStay(s: State, t: State, l: Label) {
    forall q :: q in t.calls && !Acts(l, q) ==> q in s.calls && t.calls[q] == s.calls[q]
  }

  /** The histories only grow. */
  ghost predicate Grown(s: State, t: State) {
    && (forall sid :: sid in s.filed ==> sid in t.filed && t.filed[sid] == s.filed[sid])
    && (forall u :: u in s.born ==> u in t.born && t.born[u] == s.born[u])
    && |s.otps| <= |t.otps|
    && (forall i :: 0 <= i < |s.otps| ==> t.otps[i] == s.otps[i])
    && s.t.nextUser <= t.t.nextUser
    && s.removed <= t.removed
  }

  lemma StepFollows(s: State, l: Label)
    requires FiledOk(s) && (forall u :: u in s.born ==> u < s.t.nextUser) && Enabled(s, l)
    ensures Grown(s, Next(s, l))
  {
    StepFrame(s, l);
    NextUserGrows(s, l);
    RemovedGrows(s, l);
  }

  lemma StepOthers(s: State, l: Label)
    requires Enabled(s, l)
    ensures OthersStay(s, Next(s, l), l)
  {
  }

  lemma StepFrame(s: State, l: Label)
    requires Enabled(s, l)
    ensures !l.CreateUser? ==> Next(s, l).filed == s.filed
    ensures !l.SaveOtp? ==> Next(s, l).otps == s.otps
    ensures !l.PersistUser? ==> Next(s, l).born == s.born
    ensures !l.DeleteUser? ==> Next(s, l).removed == s.removed
    ensures !l.SaveOtp? && !l.FinishOtp? && !l.ExpireOtp? ==> Next(s, l).hashes == s.hashes
    ensures !l.PersistUser? && !l.DeleteUser? ==> Next(s, l).t.users == s.t.users
    ensures !l.PersistPrefs? && !l.DeleteUser? ==> Next(s, l).t.prefs == s.t.prefs
    ensures !l.CreateUser? && !l.DeleteStaged? ==> Next(s, l).t.staging == s.t.staging
  {
    TablesFrame(s, l);
  }

  lemma TablesFrame(s: State, l: Label)
    requires Enabled(s, l)
    ensures !l.PersistUser? && !l.DeleteUser? ==> Next(s, l).t.users == s.t.users
    ensures !l.PersistPrefs? && !l.DeleteUser? ==> Next(s, l).t.prefs == s.t.prefs
    ensures !l.CreateUser? && !l.DeleteStaged? ==> Next(s, l).t.staging == s.t.staging
  {
  }

  // ----- passwords and the registrations they belong to

  lemma Registrants(s: State, l: Label)
    requires Enabled(s, l)
    ensures forall p, sid :: Registering(Next(s, l), p, sid) ==>
      || (Registering(s, p, sid) && Next(s, l).calls[p].email == s.calls[p].email && !(l.SaveOtp? && p == l.p))
      || (l.CreateUser? && p == l.p && sid == s.t.nextStaged)
  {
  }

  lemma OtpsCarry(s: State, t: State)
    requires OtpsOk(s) && Grown(s, t) && t.otps == s.otps
    requires forall p, sid :: Registering(t, p, sid) ==> Registering(s, p, sid) && t.calls[p].email == s.calls[p].email
    ensures OtpsOk(t)
  {
  }

  lemma OtpsCreate(s: State, l: Label)
    requires FiledOk(s) && OtpsOk(s) && Enabled(s, l) && l.CreateUser?
    ensures OtpsOk(Next(s, l))
  {
    Registrants(s, l);
    var t := Next(s, l);
    forall p, sid | Registering(t, p, sid)
      ensures sid in t.filed && t.filed[sid].email == t.calls[p].email && Unsaved(t.otps, sid)
    {
    }
  }

  lemma OtpsSave(s: State, l: Label)
    requires OtpsOk(s) && Enabled(s, l) && l.SaveOtp?
    ensures OtpsOk(Next(s, l))
  {
    Registrants(s, l);
    assert Registering(s, l.p, s.calls[l.p].sid);
  }

  lemma OtpsStep(s: State, l: Label)
    requires FiledOk(s) && OtpsOk(s) && Enabled(s, l) && Grown(s, Next(s, l))
    ensures OtpsOk(Next(s, l))
  {
    if l.CreateUser? {
      OtpsCreate(s, l);
    } else if l.SaveOtp? {
      OtpsSave(s, l);
    } else {
      Registrants(s, l);
      StepFrame(s, l);
      OtpsCarry(s, Next(s, l));
    }
  }

  // ----- who is let through

  lemma SavedStays(s: State, t: State)
    requires Grown(s, t)
    ensures forall email, saved :: SavedOk(s.otps, email, saved) ==> SavedOk(t.otps, email, saved)
    ensures forall email, sid :: SavedFor(s.otps, email, sid) ==> SavedFor(t.otps, email, sid)
  {
    forall email, sid | SavedFor(s.otps, email, sid)
      ensures SavedFor(t.otps, email, sid)
    {
      var i :| 0 <= i < |s.otps| && s.otps[i].email == email && s.otps[i].sid == sid;
      assert t.otps[i] == s.otps[i];
    }
    assert forall saved :: saved in s.otps ==> saved in t.otps;
  }

  /** Every hash and every call past it goes back to one that was there, or to SaveOTP. */
  lemma HashesFrom(s: State, l: Label)
    requires Enabled(s, l)
    ensures forall e :: e in Next(s, l).hashes ==>
      var saved := Next(s, l).hashes[e].saved;
      saved.None? || (e in s.hashes && saved == s.hashes[e].saved) || (l.SaveOtp? && saved.value in Next(s, l).otps && saved.value.email == e)
  {
  }

  lemma LoadedFrom(s: State, l: Label)
    requires Enabled(s, l)
    ensures forall p :: p in Next(s, l).calls && Next(s, l).calls[p].Loaded? ==>
      var call := Next(s, l).calls[p];
      (p in s.calls && call == s.calls[p]) || (call.email in s.hashes && call.saved == s.hashes[call.email].saved)
  {
  }

  lemma MatchedFrom(s: State, l: Label)
    requires Enabled(s, l)
    ensures forall p :: p in Next(s, l).calls && (Next(s, l).calls[p].Matched? || Next(s, l).calls[p].Verified?) ==>
      var call := Next(s, l).calls[p];
      && p in s.calls
      && ((s.calls[p].Matched? || s.calls[p].Verified?) ==> s.calls[p].email == call.email && s.calls[p].sid == call.sid)
      && (s.calls[p].Matched? || s.calls[p].Verified? || LetsThrough(s.calls[p], call))
  {
  }

  /** The call that matched had read this password. */
  predicate LetsThrough(before: Call, call: Call) {
    && before.Loaded? && before.saved.Some? && call.Matched?
    && before.email == call.email && before.saved.value.sid == call.sid
  }

  lemma SavedForOne(otps: seq<SavedOtp>, email: string, saved: SavedOtp)
    requires saved in otps && saved.email == email
    ensures SavedFor(otps, email, saved.sid)
  {
    var i :| 0 <= i < |otps| && otps[i] == saved;
  }

  lemma HashesStep(s: State, l: Label)
    requires HashesOk(s) && Enabled(s, l) && Grown(s, Next(s, l))
    ensures HashesOk(Next(s, l))
  {
    var t := Next(s, l);
    SavedStays(s, t);
    HashesFrom(s, l);
    LoadedFrom(s, l);
    MatchedFrom(s, l);
    forall p | p in t.calls && (t.calls[p].Matched? || t.calls[p].Verified?)
      ensures SavedFor(t.otps, t.calls[p].email, t.calls[p].sid)
    {
      if s.calls[p].Loaded? {
        assert SavedOk(s.otps, s.calls[p].email, s.calls[p].saved);
        SavedForOne(s.otps, s.calls[p].email, s.calls[p].saved.value);
      }
    }
  }

  // ----- users

  lemma BornCarry(s: State, t: State)
    requires BornOk(s) && Grown(s, t) && t.born == s.born
    requires forall u :: u in t.t.users ==> u in s.t.users && t.t.users[u] == s.t.users[u]
    ensures BornOk(t)
  {
    SavedStays(s, t);
    forall u | u in t.born
      ensures u < t.t.nextUser && BirthOk(t, t.born[u])
    {
      assert BirthOk(s, s.born[u]);
    }
  }

  lemma PersistBears(s: State, l: Label)
    requires TablesOk(s.t) && FiledOk(s) && HashesOk(s) && BornOk(s) && Enabled(s, l) && l.PersistUser?
    ensures BornOk(Next(s, l))
  {
    var t := Next(s, l);
    if InsertUser(s.t, s.calls[l.p].email).Some? && l.o.Applied() {
      NewBirth(s, l);
    }
    forall u | u in t.born
      ensures u < t.t.nextUser && BirthOk(t, t.born[u])
    {
      assert u in s.born ==> BirthOk(s, s.born[u]);
    }
  }

  lemma NewBirth(s: State, l: Label)
    requires TablesOk(s.t) && FiledOk(s) && HashesOk(s) && Enabled(s, l) && l.PersistUser?
    requires InsertUser(s.t, s.calls[l.p].email).Some? && l.o.Applied()
    ensures
      var t, u := Next(s, l), s.t.nextUser;
      && t.filed == s.filed && t.otps == s.otps && t.t.nextUser == u + 1
      && u in t.born && t.born == s.born[u := t.born[u]] && BirthOk(t, t.born[u])
      && u in t.t.users && t.t.users == s.t.users[u := t.t.users[u]]
      && t.t.users[u] == User(t.filed[t.born[u].row].email, t.filed[t.born[u].row].password)
  {
  }

  lemma BornStep(s: State, l: Label)
    requires TablesOk(s.t) && FiledOk(s) && HashesOk(s) && BornOk(s) && Enabled(s, l) && Grown(s, Next(s, l))
    ensures BornOk(Next(s, l))
  {
    if l.PersistUser? {
      PersistBears(s, l);
    } else {
      StepFrame(s, l);
      UsersLeave(s, l);
      BornCarry(s, Next(s, l));
    }
  }

  lemma UsersLeave(s: State, l: Label)
    requires Enabled(s, l) && !l.PersistUser?
    ensures forall u :: u in Next(s, l).t.users ==> u in s.t.users && Next(s, l).t.users[u] == s.t.users[u]
  {
    StepFrame(s, l);
  }

  // ----- preferences

  ghost predicate KnownRows(s: State) {
    forall u :: u in s.born ==> s.born[u].row in s.filed
  }

  /** Calls about to write preferences are the old ones, and perhaps one for a new user. */
  ghost predicate OnlyNew(s: State, t: State, newUser: nat) {
    && (forall p, u :: Persisting(t, p, u) ==>
          || (Persisting(s, p, u) && t.calls[p] == s.calls[p])
          || (u == newUser && u in t.born && t.born[u].row in t.filed && t.calls[p].prefs == t.filed[t.born[u].row].prefs))
    && (forall p, q :: Persisting(t, p, newUser) && Persisting(t, q, newUser) ==> p == q)
  }

  lemma PrefsCarry(s: State, t: State, newUser: nat)
    requires KnownRows(s) && KnownRows(t) && PrefsOk(s) && Grown(s, t) && OnlyNew(s, t, newUser) && newUser !in s.born
    requires forall k :: k in t.t.prefs ==> k in s.t.prefs && t.t.prefs[k] == s.t.prefs[k]
    ensures PrefsOk(t)
  {
    forall p, u | Persisting(t, p, u)
      ensures u in t.born && t.calls[p].prefs == t.filed[t.born[u].row].prefs && Unwritten(t.t, u)
    {
      assert Persisting(s, p, u) ==> Unwritten(s.t, u);
    }
  }

  lemma PrefsAdded(s: State, t: State, p: nat, k: nat, u: nat)
    requires KnownRows(s) && PrefsOk(s) && t.filed == s.filed && t.born == s.born
    requires Persisting(s, p, u) && k !in s.t.prefs && t.t.prefs == s.t.prefs[k := PrefRow(u, s.calls[p].prefs)]
    requires forall q, v :: Persisting(t, q, v) ==> q != p && Persisting(s, q, v) && t.calls[q] == s.calls[q]
    ensures PrefsOk(t)
  {
    assert Unwritten(s.t, u);
    forall q, v | Persisting(t, q, v)
      ensures v in t.born && t.calls[q].prefs == t.filed[t.born[v].row].prefs && Unwritten(t.t, v)
    {
      assert Persisting(s, q, v) && v != u && Unwritten(s.t, v);
    }
  }

  lemma PersistersFrom(s: State, l: Label)
    requires Enabled(s, l)
    ensures forall p, u :: Persisting(Next(s, l), p, u) ==>
      || (Persisting(s, p, u) && Next(s, l).calls[p] == s.calls[p] && !(l.PersistPrefs? && p == l.p))
      || (l.PersistUser? && p == l.p && u == s.t.nextUser && InsertUser(s.t, s.calls[l.p].email).Some? && l.o.Ok())
  {
  }

  lemma OnlyNewStep(s: State, l: Label)
    requires FiledOk(s) && Enabled(s, l) && (forall p :: !Persisting(s, p, s.t.nextUser))
    ensures OnlyNew(s, Next(s, l), s.t.nextUser)
  {
    PersistersFrom(s, l);
    var t := Next(s, l);
    forall p | Persisting(t, p, s.t.nextUser)
      ensures l.PersistUser? && p == l.p
    {
      assert !Persisting(s, p, s.t.nextUser);
    }
  }

  lemma PrefRowsLeave(s: State, l: Label)
    requires Enabled(s, l) && (l.PersistPrefs? ==> Next(s, l).t.prefs == s.t.prefs)
    ensures forall k :: k in Next(s, l).t.prefs ==> k in s.t.prefs && Next(s, l).t.prefs[k] == s.t.prefs[k]
  {
    StepFrame(s, l);
  }

  lemma PrefsStep(s: State, l: Label)
    requires TablesOk(s.t) && FiledOk(s) && BornOk(s) && PrefsOk(s) && Enabled(s, l)
    requires Grown(s, Next(s, l)) && KnownRows(Next(s, l))
    ensures PrefsOk(Next(s, l))
  {
    var t := Next(s, l);
    if l.PersistPrefs? && t.t.prefs != s.t.prefs {
      PersistersFrom(s, l);
      StepFrame(s, l);
      PrefsAdded(s, t, l.p, s.t.nextPref, s.calls[l.p].uid);
    } else {
      OnlyNewStep(s, l);
      PrefRowsLeave(s, l);
      PrefsCarry(s, t, s.t.nextUser);
    }
  }

  // ----- calls past PersistUser

  lemma FollowersFrom(s: State, l: Label)
    requires Enabled(s, l)
    ensures forall p :: p in Next(s, l).calls && (Next(s, l).calls[p].Persisted? || Next(s, l).calls[p].Preferred?) ==>
      var call := Next(s, l).calls[p];
      && p in s.calls
      && (|| call == s.calls[p]
          || (l.PersistUser? && p == l.p && call.Persisted? && call.uid == s.t.nextUser && call.email == s.calls[p].email
              && call.sid == s.calls[p].sid && InsertUser(s.t, call.email).Some? && l.o.Ok())
          || (l.PersistPrefs? && p == l.p && s.calls[p].Persisted? && call == Preferred(s.calls[p].email, s.calls[p].uid, s.calls[p].sid)
              && s.calls[p].uid in s.t.users && l.o.Ok()))
  {
  }

  lemma WrittenStays(s: State, l: Label, u: nat)
    requires TablesOk(s.t) && Enabled(s, l) && u < s.t.nextUser && u in Next(s, l).t.users
    ensures u in s.t.users && (!Unwritten(s.t, u) ==> !Unwritten(Next(s, l).t, u))
  {
    if !Unwritten(s.t, u) {
      var k :| k in s.t.prefs && s.t.prefs[k].userId == u;
      PrefRowStep(s, l, k);
    }
  }

  lemma FollowersStep(s: State, l: Label)
    requires TablesOk(s.t) && FiledOk(s) && HashesOk(s) && BornOk(s) && FollowersOk(s) && Enabled(s, l) && Grown(s, Next(s, l))
    ensures FollowersOk(Next(s, l))
  {
    var t := Next(s, l);
    FollowersFrom(s, l);
    forall p | p in t.calls
      ensures Accompanies(t, t.calls[p])
    {
      FollowerStep(s, l, p);
    }
  }

  lemma FollowerStep(s: State, l: Label, p: nat)
    requires TablesOk(s.t) && FiledOk(s) && HashesOk(s) && BornOk(s) && FollowersOk(s) && Enabled(s, l) && Grown(s, Next(s, l))
    requires p in Next(s, l).calls
    ensures Accompanies(Next(s, l), Next(s, l).calls[p])
  {
    var call := Next(s, l).calls[p];
    if call.Persisted? || call.Preferred? {
      FollowersFrom(s, l);
      if l.PersistUser? && p == l.p {
        NewBirth(s, l);
      } else if l.PersistPrefs? && p == l.p {
        NowWritten(s, l);
      } else {
        StillAccompanies(s, l, p);
      }
    }
  }

  lemma StillAccompanies(s: State, l: Label, p: nat)
    requires TablesOk(s.t) && BornOk(s) && FollowersOk(s) && Enabled(s, l) && Grown(s, Next(s, l))
    requires p in s.calls && p in Next(s, l).calls && Next(s, l).calls[p] == s.calls[p]
    ensures Accompanies(Next(s, l), s.calls[p])
  {
    var call := s.calls[p];
    assert Accompanies(s, call);
    if call.Preferred? && call.uid in Next(s, l).t.users {
      WrittenStays(s, l, call.uid);
    }
  }

  lemma NowWritten(s: State, l: Label)
    requires FollowersOk(s) && Enabled(s, l) && l.PersistPrefs? && l.o.Ok() && s.calls[l.p].uid in s.t.users
    requires Grown(s, Next(s, l))
    ensures l.p in Next(s, l).calls && Accompanies(Next(s, l), Next(s, l).calls[l.p])
  {
    var t := Next(s, l);
    assert Accompanies(s, s.calls[l.p]);
    assert s.t.nextPref in t.t.prefs && t.t.prefs[s.t.nextPref].userId == s.calls[l.p].uid;
  }

  lemma PrefRowStep(s: State, l: Label, k: nat)
    requires TablesOk(s.t) && Enabled(s, l) && k in s.t.prefs
    ensures
      var t := Next(s, l).t;
      if s.t.prefs[k].userId in t.users then k in t.prefs && t.prefs[k] == s.t.prefs[k]
      else s.t.prefs[k].userId < t.nextUser
  {
    NextUserGrows(s, l);
    if l.DeleteUser? {
      RemovedPrefs(s, l, k);
    } else if l.PersistPrefs? {
      AddedPrefs(s, l, k);
    } else {
      StepFrame(s, l);
    }
  }

  lemma NextUserGrows(s: State, l: Label)
    requires Enabled(s, l)
    ensures s.t.nextUser <= Next(s, l).t.nextUser
  {
  }

  lemma RemovedPrefs(s: State, l: Label, k: nat)
    requires Enabled(s, l) && l.DeleteUser? && k in s.t.prefs
    ensures s.t.prefs[k].userId in Next(s, l).t.users ==> k in Next(s, l).t.prefs && Next(s, l).t.prefs[k] == s.t.prefs[k]
  {
  }

  lemma AddedPrefs(s: State, l: Label, k: nat)
    requires Enabled(s, l) && l.PersistPrefs? && k in s.t.prefs && k < s.t.nextPref
    ensures k in Next(s, l).t.prefs && Next(s, l).t.prefs[k] == s.t.prefs[k]
  {
  }

  // ----- where users come from

  lemma AdmittedStays(s: State, l: Label, email: string)
    requires TablesOk(s.t) && Enabled(s, l) && Admitted(s, email)
    ensures Admitted(Next(s, l), email)
  {
    StepFrame(s, l);
    RemovedGrows(s, l);
    if email !in s.removed {
      var u :| u in s.t.users && s.t.users[u].email == email;
      UserStays(s, l, u);
    }
  }

  lemma RemovedGrows(s: State, l: Label)
    requires Enabled(s, l)
    ensures s.removed <= Next(s, l).removed
  {
  }

  /** A user stays as it is until it is deleted. */
  lemma UserStays(s: State, l: Label, u: nat)
    requires TablesOk(s.t) && Enabled(s, l) && u in s.t.users
    ensures (u in Next(s, l).t.users && Next(s, l).t.users[u] == s.t.users[u]) || s.t.users[u].email in Next(s, l).removed
  {
    if !l.PersistUser? && !l.DeleteUser? {
      StepFrame(s, l);
    }
  }

  lemma StagedStays(s: State, l: Label, email: string)
    requires Enabled(s, l) && email in s.t.staging && (l.DeleteStaged? ==> s.calls[l.p].email != email)
    ensures email in Next(s, l).t.staging && Next(s, l).t.staging[email] == s.t.staging[email]
  {
    if !l.CreateUser? && !l.DeleteStaged? {
      StepFrame(s, l);
    }
  }

  lemma StandingStays(s: State, l: Label, sid: nat)
    requires KnownRows(s) && TablesOk(s.t) && OriginOk(s) && Enabled(s, l) && sid in s.filed
    requires sid in Next(s, l).filed && Next(s, l).filed[sid] == s.filed[sid]
    ensures Standing(Next(s, l), sid)
  {
    var email := s.filed[sid].email;
    if Admitted(s, email) {
      AdmittedStays(s, l, email);
    } else {
      assert Standing(s, sid);
      assert l.DeleteStaged? ==> Admitted(s, s.calls[l.p].email);
      StagedStays(s, l, email);
    }
  }

  /** A user that can be made for an address never deleted is made from the verified row. */
  lemma PersistOrigin(s: State, l: Label)
    requires KnownRows(s) && OtpsOk(s) && HashesOk(s) && OriginOk(s) && Enabled(s, l)
    requires l.PersistUser? && InsertUser(s.t, s.calls[l.p].email).Some?
    ensures
      var email := s.calls[l.p].email;
      l.o.Applied() ==>
        && HasUser(Next(s, l).t, email)
        && (email !in s.removed ==> s.t.staging[email].id == s.calls[l.p].sid)
  {
    var email := s.calls[l.p].email;
    assert l.o.Applied() ==> s.t.nextUser in Next(s, l).t.users;
    var i :| 0 <= i < |s.otps| && s.otps[i].email == email && s.otps[i].sid == s.calls[l.p].sid;
    assert Standing(s, s.otps[i].sid);
  }

  lemma CallAdmitted(s: State, l: Label, p: nat)
    requires KnownRows(s) && TablesOk(s.t) && OtpsOk(s) && HashesOk(s) && OriginOk(s) && Enabled(s, l)
    requires p in Next(s, l).calls && (Next(s, l).calls[p].Persisted? || Next(s, l).calls[p].Preferred?)
    ensures Admitted(Next(s, l), Next(s, l).calls[p].email)
  {
    FollowersFrom(s, l);
    if l.PersistUser? && p == l.p {
      PersistOrigin(s, l);
    } else {
      AdmittedStays(s, l, s.calls[p].email);
    }
  }

  lemma BornOrigin(s: State, l: Label, u: nat)
    requires KnownRows(s) && TablesOk(s.t) && FiledOk(s) && OtpsOk(s) && HashesOk(s) && OriginOk(s) && Enabled(s, l)
    requires Grown(s, Next(s, l)) && KnownRows(Next(s, l)) && u in Next(s, l).born
    ensures
      var t := Next(s, l);
      t.filed[t.born[u].row].email !in t.removed ==> t.born[u].row == t.born[u].verified
  {
    if u !in s.born {
      PersistOrigin(s, l);
    }
  }

  lemma NewStanding(s: State, l: Label, sid: nat)
    requires Enabled(s, l) && sid in Next(s, l).filed && sid !in s.filed
    ensures Standing(Next(s, l), sid)
  {
  }

  lemma OriginStep(s: State, l: Label)
    requires KnownRows(s) && TablesOk(s.t) && FiledOk(s) && OtpsOk(s) && HashesOk(s) && OriginOk(s) && Enabled(s, l)
    requires Grown(s, Next(s, l)) && KnownRows(Next(s, l))
    ensures OriginOk(Next(s, l))
  {
    var t := Next(s, l);
    forall sid | sid in t.filed
      ensures Standing(t, sid)
    {
      if sid in s.filed {
        StandingStays(s, l, sid);
      } else {
        NewStanding(s, l, sid);
      }
    }
    forall p | p in t.calls && (t.calls[p].Persisted? || t.calls[p].Preferred?)
      ensures Admitted(t, t.calls[p].email)
    {
      CallAdmitted(s, l, p);
    }
    forall u | u in t.born && t.filed[t.born[u].row].email !in t.removed
      ensures t.born[u].row == t.born[u].verified
    {
      BornOrigin(s, l, u);
    }
  }

  lemma StepKeepsInv(s: State, l: Label)
    requires Inv(s) && Enabled(s, l)
    ensures Inv(Next(s, l))
  {
    TablesStep(s, l);
    FiledStep(s, l);
    StepFollows(s, l);
    OtpsStep(s, l);
    HashesStep(s, l);
    BornStep(s, l);
    PrefsStep(s, l);
    FollowersStep(s, l);
    OriginStep(s, l);
  }

  lemma {:induction false} RunKeepsInv(s: State, ls: seq<Label>)
    requires Inv(s) && Legal(s, ls)
    ensures Inv(Run(s, ls))
    decreases |ls|
  {
    if ls != [] {
      StepKeepsInv(s, ls[0]);
      RunKeepsInv(Next(s, ls[0]), ls[1..]);
    }
  }

  lemma Reachable(ls: seq<Label>)
    requires Legal(INIT, ls)
    ensures Inv(Run(INIT, ls))
  {
    RunKeepsInv(INIT, ls);
  }

  // ----- who becomes a user

  /** Something that goes back to the password of staging row sid. */
  ghost predicate Traced(s: State, sid: nat) {
    || (exists p :: p in s.calls && (s.calls[p].Matched? || s.calls[p].Verified?) && s.calls[p].sid == sid)
    || (exists u :: u in s.born && s.born[u].verified == sid)
  }

  /** Some step of the run compared the very password that was saved for staging row sid. */
  ghost predicate VerifiedIn(ls: seq<Label>, otps: seq<SavedOtp>, sid: nat) {
    exists j, i :: 0 <= j < |ls| && 0 <= i < |otps| && ls[j].CompareOtp? && otps[i].sid == sid && otps[i].otp == ls[j].sent
  }

  lemma {:induction false} OtpsGrow(s: State, ls: seq<Label>)
    requires Legal(s, ls)
    ensures |s.otps| <= |Run(s, ls).otps| && Run(s, ls).otps[..|s.otps|] == s.otps
    decreases |ls|
  {
    if ls != [] {
      StepFrame(s, ls[0]);
      OtpsGrow(Next(s, ls[0]), ls[1..]);
    }
  }

  lemma TraceStep(s: State, l: Label, sid: nat)
    requires HashesOk(s) && Enabled(s, l) && Traced(Next(s, l), sid)
    ensures Traced(s, sid) || VerifiedIn([l], s.otps, sid)
  {
    var t := Next(s, l);
    MatchedFrom(s, l);
    if p :| p in t.calls && (t.calls[p].Matched? || t.calls[p].Verified?) && t.calls[p].sid == sid {
      if s.calls[p].Loaded? {
        MatchIsCompared(s, l, p);
      }
    } else {
      var u :| u in t.born && t.born[u].verified == sid;
      BirthFrom(s, l, u);
    }
  }

  lemma MatchIsCompared(s: State, l: Label, p: nat)
    requires HashesOk(s) && Enabled(s, l) && p in s.calls && s.calls[p].Loaded?
    requires p in Next(s, l).calls && Next(s, l).calls[p].Matched?
    ensures VerifiedIn([l], s.otps, Next(s, l).calls[p].sid)
  {
    assert l.CompareOtp? && p == l.p && s.calls[p].saved.Some?;
    assert SavedOk(s.otps, s.calls[p].email, s.calls[p].saved);
    var i :| 0 <= i < |s.otps| && s.otps[i] == s.calls[p].saved.value;
    assert [l][0] == l && s.otps[i].otp == l.sent;
  }

  lemma BirthFrom(s: State, l: Label, u: nat)
    requires Enabled(s, l) && u in Next(s, l).born
    ensures (u in s.born && s.born[u] == Next(s, l).born[u])
      || (l.PersistUser? && s.calls[l.p].sid == Next(s, l).born[u].verified)
  {
    if !l.PersistUser? {
      StepFrame(s, l);
    }
  }

  lemma {:induction false} TracesHaveSteps(s: State, ls: seq<Label>, sid: nat)
    requires Inv(s) && Legal(s, ls) && Traced(Run(s, ls), sid)
    ensures Traced(s, sid) || VerifiedIn(ls, Run(s, ls).otps, sid)
    decreases |ls|
  {
    if ls != [] {
      var t := Next(s, ls[0]);
      StepKeepsInv(s, ls[0]);
      TracesHaveSteps(t, ls[1..], sid);
      OtpsGrow(s, ls);
      if VerifiedIn(ls[1..], Run(s, ls).otps, sid) {
        VerifiedLater(ls, Run(s, ls).otps, sid);
      } else {
        TraceStep(s, ls[0], sid);
        if VerifiedIn([ls[0]], s.otps, sid) {
          var j, i :| 0 <= j < 1 && 0 <= i < |s.otps| && ls[0].CompareOtp? && s.otps[i].sid == sid && s.otps[i].otp == ls[0].sent;
          assert Run(s, ls).otps[i] == s.otps[i];
        }
      }
    }
  }

  lemma VerifiedLater(ls: seq<Label>, otps: seq<SavedOtp>, sid: nat)
    requires ls != [] && VerifiedIn(ls[1..], otps, sid)
    ensures VerifiedIn(ls, otps, sid)
  {
    var rest := ls[1..];
    var j, i :| 0 <= j < |rest| && 0 <= i < |otps| && rest[j].CompareOtp? && otps[i].sid == sid && otps[i].otp == rest[j].sent;
    assert ls[j + 1] == rest[j];
  }

  /** The user's data come from a registration of its address, and a password was saved for it. */
  ghost predicate Backed(s: State, u: nat)
    requires u in s.t.users
  {
    && u in s.born && s.born[u].row in s.filed
    && SavedFor(s.otps, s.t.users[u].email, s.born[u].verified)
    && s.t.users[u] == User(s.filed[s.born[u].row].email, s.filed[s.born[u].row].password)
    && forall v :: v in s.t.users && s.t.users[v].email == s.t.users[u].email ==> v == u
  }

  lemma UserIsBacked(s: State, u: nat)
    requires TablesOk(s.t) && BornOk(s) && u in s.t.users
    ensures Backed(s, u)
  {
    assert BirthOk(s, s.born[u]);
  }

  /** Every user's address was proved: some call compared the password that a registration of
      that very address had saved, and the user's data come from a registration of it. No two
      users share an address. */
  lemma UsersAreVerified(ls: seq<Label>, u: nat)
    requires Legal(INIT, ls) && u in Run(INIT, ls).t.users
    ensures Backed(Run(INIT, ls), u)
    ensures VerifiedIn(ls, Run(INIT, ls).otps, Run(INIT, ls).born[u].verified)
  {
    Reachable(ls);
    var s := Run(INIT, ls);
    UserIsBacked(s, u);
    assert Traced(s, s.born[u].verified);
    InitIsFine();
    TracesHaveSteps(INIT, ls, s.born[u].verified);
  }

  lemma InitIsFine()
    ensures Inv(INIT) && forall sid :: !Traced(INIT, sid)
  {
  }

  /** While no user of the address was ever deleted, a user carries exactly the data of the
      registration whose password was verified. */
  lemma UsersAreTheVerifiedRegistration(ls: seq<Label>, u: nat)
    requires Legal(INIT, ls) && u in Run(INIT, ls).t.users
    requires Run(INIT, ls).t.users[u].email !in Run(INIT, ls).removed
    ensures
      var s := Run(INIT, ls);
      && u in s.born && s.born[u].verified in s.filed
      && var reg := s.filed[s.born[u].verified];
      s.t.users[u] == User(reg.email, reg.password)
  {
    Reachable(ls);
  }

  /** Every staging row gets at most one saved password, for its own address. */
  lemma OnePasswordPerStagingRow(ls: seq<Label>, i: nat, j: nat)
    requires Legal(INIT, ls) && i < |Run(INIT, ls).otps| && j < |Run(INIT, ls).otps|
    ensures
      var s := Run(INIT, ls);
      && s.otps[i].sid in s.filed && s.filed[s.otps[i].sid].email == s.otps[i].email
      && (s.otps[i].sid == s.otps[j].sid ==> i == j)
  {
    Reachable(ls);
  }

  // ----- what a complete verification leaves

  /** The user has exactly one row of preferences, and it holds these. */
  ghost predicate HasExactly(t: Tables, u: nat, prefs: seq<string>) {
    exists k :: k in t.prefs && t.prefs[k] == PrefRow(u, prefs) && forall m :: m in t.prefs && t.prefs[m].userId == u ==> m == k
  }

  ghost predicate Moved(s: State, call: Call)
    requires call.Preferred?
  {
    && call.email !in s.t.staging && call.email !in s.t.verification
    && call.uid in s.born && s.born[call.uid].row in s.filed && s.born[call.uid].verified == call.sid
    && (call.uid in s.t.users ==> HasExactly(s.t, call.uid, s.filed[s.born[call.uid].row].prefs))
    && (call.email !in s.removed ==> s.born[call.uid].row == call.sid)
  }

  /** Whatever ran beside it: when a call's last statement succeeds, its address is in neither
      staging table, and its user, if it is still there, has exactly the staged preferences:
      those of the verified registration, unless a user of the address was deleted. */
  lemma CompletedVerification(ls: seq<Label>, l: Label)
    requires Legal(INIT, ls) && Enabled(Run(INIT, ls), l) && l.DeleteStaged? && l.o.Ok()
    ensures Moved(Next(Run(INIT, ls), l), Run(INIT, ls).calls[l.p])
  {
    Reachable(ls);
    CompletedStep(Run(INIT, ls), l);
  }

  lemma WrittenExactly(s: State, u: nat)
    requires KnownRows(s) && PrefsOk(s) && u in s.born && !Unwritten(s.t, u)
    ensures HasExactly(s.t, u, s.filed[s.born[u].row].prefs)
  {
    var k :| k in s.t.prefs && s.t.prefs[k].userId == u;
    assert s.t.prefs[k] == PrefRow(u, s.filed[s.born[u].row].prefs);
  }

  lemma CompletedStep(s: State, l: Label)
    requires KnownRows(s) && PrefsOk(s) && FollowersOk(s) && OriginOk(s) && s.t.verification.Keys <= s.t.staging.Keys
    requires Enabled(s, l) && l.DeleteStaged? && l.o.Ok()
    ensures Moved(Next(s, l), s.calls[l.p])
  {
    var call := s.calls[l.p];
    assert Accompanies(s, call);
    if call.uid in s.t.users {
      WrittenExactly(s, call.uid);
      assert Next(s, l).t.prefs == s.t.prefs;
    }
  }

  // ----- preferences

  lemma {:induction false} PrefRowsStay(s: State, ls: seq<Label>, k: nat)
    requires Inv(s) && Legal(s, ls) && k in s.t.prefs
    requires s.t.prefs[k].userId in Run(s, ls).t.users
    ensures k in Run(s, ls).t.prefs && Run(s, ls).t.prefs[k] == s.t.prefs[k]
    decreases |ls|
  {
    if ls != [] {
      var t := Next(s, ls[0]);
      StepKeepsInv(s, ls[0]);
      PrefRowStep(s, ls[0], k);
      if s.t.prefs[k].userId !in t.t.users {
        UsersStayAway(t, ls[1..], s.t.prefs[k].userId);
      } else {
        PrefRowsStay(t, ls[1..], k);
      }
    }
  }

  /** A deleted user's number never comes back. */
  lemma {:induction false} UsersStayAway(s: State, ls: seq<Label>, u: nat)
    requires Legal(s, ls) && u < s.t.nextUser && u !in s.t.users
    ensures u !in Run(s, ls).t.users
    decreases |ls|
  {
    if ls != [] {
      UserStep(s, ls[0], u);
      UsersStayAway(Next(s, ls[0]), ls[1..], u);
    }
  }

  lemma UserStep(s: State, l: Label, u: nat)
    requires Enabled(s, l) && u < s.t.nextUser
    ensures u < Next(s, l).t.nextUser && (u in Next(s, l).t.users ==> u in s.t.users)
  {
  }

  /** A user's preferences are those of the registration it was copied from, in one row that
      nothing changes while the user exists. */
  lemma PreferencesNeverChange(ls: seq<Label>, more: seq<Label>, k: nat, m: nat)
    requires Legal(INIT, ls) && k in Run(INIT, ls).t.prefs
    requires Legal(Run(INIT, ls), more) && m in Run(Run(INIT, ls), more).t.prefs
    requires Run(Run(INIT, ls), more).t.prefs[m].userId == Run(INIT, ls).t.prefs[k].userId
    ensures
      var s, t := Run(INIT, ls), Run(Run(INIT, ls), more);
      var u := s.t.prefs[k].userId;
      && m == k && t.t.prefs[m] == s.t.prefs[k]
      && u in s.born && s.born[u].row in s.filed && s.t.prefs[k].prefs == s.filed[s.born[u].row].prefs
  {
    Reachable(ls);
    RunKeepsInv(Run(INIT, ls), more);
    PrefRowsStay(Run(INIT, ls), more, k);
  }

  // ----- runs one after the other

  lemma {:induction false} Append(s: State, a: seq<Label>, b: seq<Label>)
    requires Legal(s, a) && Legal(Run(s, a), b)
    ensures Legal(s, a + b) && Run(s, a + b) == Run(Run(s, a), b)
    decreases |a|
  {
    if a == [] {
      assert a + b == b;
    } else {
      assert (a + b)[1..] == a[1..] + b;
      Append(Next(s, a[0]), a[1..], b);
    }
  }

  lemma AndThen(s: State, ls: seq<Label>, l: Label) returns (more: seq<Label>)
    requires Legal(s, ls) && Enabled(Run(s, ls), l)
    ensures more == ls + [l] && Legal(s, more) && Run(s, more) == Next(Run(s, ls), l)
  {
    assert [l][1..] == [] && Legal(Next(Run(s, ls), l), []);
    Append(s, ls, [l]);
    more := ls + [l];
  }
}
