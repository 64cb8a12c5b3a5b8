/**
  The one-time password of one e-mail address under concurrent verification. The attempt
  counter is read, the password compared and the counter incremented in separate steps, so
  verifiers in flight are not counted yet.
*/
module Otp {
  import opened Jobs
  import opened Sets

  const MAX_TRIES := 3

  /** The Redis hash: a late increment can recreate it without a password. */
  datatype Record = Record(otp: Option<string>, count: int)

  /** bcrypt accepts exactly the hashed text; the empty stored value never verifies. */
  predicate Verifies(stored: Option<string>, sent: string) {
    stored == Some(sent)
  }

  /** A verifier between its calls; `epoch` says which SaveOTP wrote what it read. */
  datatype Verifier =
    | Started
    | Checked(otp: Option<string>, epoch: nat)
    | Compared(ok: bool, counts: bool, epoch: nat)
    | Blocked

  /** `compared` and `lost` count, per epoch, the comparisons made against its password and
      those that left no trace (increment or delete refused, or the verifier died). */
  datatype State = State(
    key: Option<Record>,
    epoch: nat,
    verifiers: map<nat, Verifier>,
    compared: multiset<nat>,
    lost: multiset<nat>,
    saved: map<nat, string>)

  const INIT := State(None, 0, map[], multiset{}, multiset{}, map[])

  datatype Label =
    | Save(otp: string)
    | Expire
    | Begin(v: nat)
    | Load(v: nat, o: Outcome)
    | Compare(v: nat, sent: string)
    | Finish(v: nat, o: Outcome)
    | Crash(v: nat)

  /** At most `limit` verifiers are in flight at any time. */
  predicate Enabled(limit: nat, s: State, l: Label) {
    match l
    case Save(_) => true
    case Expire => true
    case Begin(v) => v !in s.verifiers && |s.verifiers| < limit
    case Load(v, _) => v in s.verifiers && s.verifiers[v].Started?
    case Compare(v, _) => v in s.verifiers && s.verifiers[v].Checked?
    case Finish(v, _) => v in s.verifiers && (s.verifiers[v].Compared? || s.verifiers[v].Blocked?)
    case Crash(v) => v in s.verifiers
  }

  /** HGETALL, and the check of the counter that was read. */
  function NextLoad(s: State, v: nat, o: Outcome): State
    requires v in s.verifiers && s.verifiers[v].Started?
  {
    if !o.Ok() || s.key.None? then s.(verifiers := s.verifiers - {v})
    else
      var r := s.key.value;
      s.(verifiers := s.verifiers[v := if r.count >= MAX_TRIES then Blocked else Checked(r.otp, s.epoch)])
  }

  /** HINCRBY creates what is missing. */
  function Incremented(key: Option<Record>): Option<Record> {
    if key.Some? then Some(key.value.(count := key.value.count + 1)) else Some(Record(None, 1))
  }

  function NextFinish(s: State, v: nat, o: Outcome): State
    requires v in s.verifiers && (s.verifiers[v].Compared? || s.verifiers[v].Blocked?)
  {
    var p := s.verifiers[v];
    s.(key := if !o.Applied() then s.key else if p.Compared? && !p.ok then Incremented(s.key) else None,
       lost := if p.Compared? && p.counts && !o.Applied() then s.lost + multiset{p.epoch} else s.lost,
       verifiers := s.verifiers - {v})
  }

  function Next(s: State, l: Label, limit: nat): State
    requires Enabled(limit, s, l)
  {
    match l
    case Save(otp) =>
      s.(key := Some(Record(Some(otp), 0)), epoch := s.epoch + 1, saved := s.saved[s.epoch + 1 := otp])
    case Expire => s.(key := None)
    case Begin(v) => s.(verifiers := s.verifiers[v := Started])
    case Load(v, o) => NextLoad(s, v, o)
    case Compare(v, sent) =>
      var p := s.verifiers[v];
      s.(verifiers := s.verifiers[v := Compared(Verifies(p.otp, sent), p.otp.Some?, p.epoch)],
         compared := if p.otp.Some? then s.compared + multiset{p.epoch} else s.compared)
    case Finish(v, o) => NextFinish(s, v, o)
    case Crash(v) =>
      var p := s.verifiers[v];
      s.(verifiers := s.verifiers - {v},
         lost := if p.Compared? && p.counts then s.lost + multiset{p.epoch} else s.lost)
  }

  ghost predicate Legal(limit: nat, s: State, ls: seq<Label>)
    decreases |ls|
  {
    ls == [] || (Enabled(limit, s, ls[0]) && Legal(limit, Next(s, ls[0], limit), ls[1..]))
  }

  ghost function Run(limit: nat, s: State, ls: seq<Label>): State
    requires Legal(limit, s, ls)
    decreases |ls|
  {
    if ls == [] then s else Run(limit, Next(s, ls[0], limit), ls[1..])
  }

  // ----- the budget

  /** Verifiers that passed the check of this epoch's counter and did not compare yet. */
  ghost function Ahead(s: State, e: nat): set<nat> {
    set v | v in s.verifiers && s.verifiers[v].Checked? && s.verifiers[v].otp.Some? && s.verifiers[v].epoch == e
  }

  /** Verifiers that compared against this epoch's password and left no trace yet. */
  ghost function Behind(s: State, e: nat): set<nat> {
    set v | v in s.verifiers && s.verifiers[v].Compared? && s.verifiers[v].counts && s.verifiers[v].epoch == e
  }

  ghost predicate Budget(limit: nat, s: State, e: nat) {
    s.compared[e] + |Ahead(s, e)| <= 2 + limit + s.lost[e]
  }

  /** While the password is stored, its counter sees all comparisons but those under way. */
  ghost predicate CounterSees(s: State) {
    s.key.Some? && s.key.value.otp.Some? ==>
      s.compared[s.epoch] <= s.key.value.count + |Behind(s, s.epoch)| + s.lost[s.epoch]
  }

  /** Nobody knows a later epoch than the current one, and what was read was saved. */
  ghost predicate EpochsOk(s: State) {
    && (forall e :: e in s.compared || e in s.lost ==> e <= s.epoch)
    && (s.key.Some? && s.key.value.otp.Some? ==> s.epoch in s.saved && s.key.value.otp.value == s.saved[s.epoch])
    && (forall v :: v in s.verifiers && s.verifiers[v].Checked? && s.verifiers[v].otp.Some? ==>
          s.verifiers[v].epoch <= s.epoch && s.verifiers[v].epoch in s.saved
          && s.saved[s.verifiers[v].epoch] == s.verifiers[v].otp.value)
    && (forall v :: v in s.verifiers && s.verifiers[v].Compared? && s.verifiers[v].counts ==> s.verifiers[v].epoch <= s.epoch)
    && (forall v :: v in s.verifiers && s.verifiers[v].Compared? && s.verifiers[v].ok ==> s.verifiers[v].counts)
  }

  ghost predicate Inv(limit: nat, s: State) {
    && |s.verifiers| <= limit
    && EpochsOk(s) && CounterSees(s)
    && forall e :: Budget(limit, s, e)
  }

  /** How one verifier's change shows in the sets. */
  lemma Moved(s: State, t: State, v: nat, e: nat)
    requires v in s.verifiers
    requires t.verifiers == s.verifiers - {v} || (v in t.verifiers && t.verifiers == s.verifiers[v := t.verifiers[v]])
    ensures Ahead(t, e) - {v} == Ahead(s, e) - {v} && Behind(t, e) - {v} == Behind(s, e) - {v}
    ensures |Ahead(t, e)| == |Ahead(s, e)| - (if v in Ahead(s, e) then 1 else 0) + (if v in Ahead(t, e) then 1 else 0)
    ensures |Behind(t, e)| == |Behind(s, e)| - (if v in Behind(s, e) then 1 else 0) + (if v in Behind(t, e) then 1 else 0)
    ensures |t.verifiers| <= |s.verifiers|
  {
    SameElsewhere(Ahead(s, e), Ahead(t, e), v);
    SameElsewhere(Behind(s, e), Behind(t, e), v);
    SubsetSize(t.verifiers.Keys, s.verifiers.Keys);
  }

  /** Everyone ahead, everyone behind and a newcomer fit into the limit. */
  lemma InFlight(limit: nat, s: State, v: nat, e: nat)
    requires |s.verifiers| <= limit && v in s.verifiers && s.verifiers[v].Started?
    ensures |Ahead(s, e)| + |Behind(s, e)| + 1 <= limit
  {
    var all := Ahead(s, e) + Behind(s, e) + {v};
    assert Ahead(s, e) !! Behind(s, e);
    assert |Ahead(s, e) + Behind(s, e)| == |Ahead(s, e)| + |Behind(s, e)|;
    SubsetSize(all, s.verifiers.Keys);
  }

  /** A new password starts a new account: nobody compared against it yet. */
  lemma SaveStep(limit: nat, s: State, l: Label)
    requires Inv(limit, s) && l.Save?
    ensures Inv(limit, Next(s, l, limit))
  {
    var t := Next(s, l, limit);
    assert Behind(t, t.epoch) == {} && Ahead(t, t.epoch) == {};
    forall e
      ensures Budget(limit, t, e)
    {
      assert Budget(limit, s, e) && Ahead(t, e) == Ahead(s, e);
    }
  }

  lemma BeginStep(limit: nat, s: State, l: Label)
    requires Inv(limit, s) && Enabled(limit, s, l) && (l.Begin? || l.Expire?)
    ensures Inv(limit, Next(s, l, limit))
  {
    var t := Next(s, l, limit);
    assert Behind(t, t.epoch) == Behind(s, s.epoch);
    forall e
      ensures Budget(limit, t, e)
    {
      assert Budget(limit, s, e) && Ahead(t, e) == Ahead(s, e);
    }
  }

  /** Passing the check: at most two attempts are counted and the others are in flight. */
  lemma LoadStep(limit: nat, s: State, l: Label)
    requires Inv(limit, s) && Enabled(limit, s, l) && l.Load?
    ensures Inv(limit, Next(s, l, limit))
  {
    var t := Next(s, l, limit);
    Moved(s, t, l.v, s.epoch);
    forall e
      ensures Budget(limit, t, e)
    {
      assert Budget(limit, s, e);
      Moved(s, t, l.v, e);
      if l.v in Ahead(t, e) {
        InFlight(limit, s, l.v, e);
      }
    }
  }

  lemma CompareStep(limit: nat, s: State, l: Label)
    requires Inv(limit, s) && Enabled(limit, s, l) && l.Compare?
    ensures Inv(limit, Next(s, l, limit))
  {
    var t := Next(s, l, limit);
    Moved(s, t, l.v, s.epoch);
    forall e
      ensures Budget(limit, t, e)
    {
      assert Budget(limit, s, e);
      Moved(s, t, l.v, e);
    }
  }

  lemma FinishStep(limit: nat, s: State, l: Label)
    requires Inv(limit, s) && Enabled(limit, s, l) && (l.Finish? || l.Crash?)
    ensures Inv(limit, Next(s, l, limit))
  {
    var t := Next(s, l, limit);
    Moved(s, t, l.v, s.epoch);
    forall e
      ensures Budget(limit, t, e)
    {
      assert Budget(limit, s, e);
      Moved(s, t, l.v, e);
    }
  }

  lemma StepKeepsInv(limit: nat, s: State, l: Label)
    requires Inv(limit, s) && Enabled(limit, s, l)
    ensures Inv(limit, Next(s, l, limit))
  {
    match l
    case Save(_) => SaveStep(limit, s, l);
    case Load(_, _) => LoadStep(limit, s, l);
    case Compare(_, _) => CompareStep(limit, s, l);
    case Finish(_, _) => FinishStep(limit, s, l);
    case Crash(_) => FinishStep(limit, s, l);
    case _ => BeginStep(limit, s, l);
  }

  lemma {:induction false} RunKeepsInv(limit: nat, s: State, ls: seq<Label>)
    requires Inv(limit, s) && Legal(limit, s, ls)
    ensures Inv(limit, Run(limit, s, ls))
    decreases |ls|
  {
    if ls != [] {
      StepKeepsInv(limit, s, ls[0]);
      RunKeepsInv(limit, Next(s, ls[0], limit), ls[1..]);
    }
  }

  /** One saved password is compared at most 2 + limit times, plus once for every attempt whose
      trace was lost: three times when verification is sequential and Redis answers. */
  lemma AttemptBudget(limit: nat, ls: seq<Label>, e: nat)
    requires Legal(limit, INIT, ls)
    ensures
      var s := Run(limit, INIT, ls);
      s.compared[e] <= 2 + limit + s.lost[e]
  {
    RunKeepsInv(limit, INIT, ls);
    assert Budget(limit, Run(limit, INIT, ls), e);
  }

  /** Only the password that was saved verifies; a hash that a late increment recreated has
      none and cannot. */
  lemma OnlySavedVerifies(limit: nat, ls: seq<Label>, v: nat, sent: string)
    requires Legal(limit, INIT, ls)
    requires var s := Run(limit, INIT, ls); v in s.verifiers && s.verifiers[v].Checked?
    ensures
      var s := Run(limit, INIT, ls);
      var t := Next(s, Compare(v, sent), limit);
      t.verifiers[v].ok <==>
        && s.verifiers[v].otp.Some?
        && s.verifiers[v].epoch in s.saved && s.saved[s.verifiers[v].epoch] == sent
  {
    RunKeepsInv(limit, INIT, ls);
  }

  // ----- the budget is reached

  ghost predicate Leads(limit: nat, s: State, ls: seq<Label>, t: State) {
    Legal(limit, s, ls) && Run(limit, s, ls) == t
  }

  lemma {:induction false} Append(limit: nat, s: State, a: seq<Label>, t: State, b: seq<Label>, u: State)
    requires Leads(limit, s, a, t) && Leads(limit, t, b, u)
    ensures Leads(limit, s, a + b, u)
    decreases |a|
  {
    if a == [] {
      assert a + b == b;
    } else {
      assert (a + b)[1..] == a[1..] + b;
      Append(limit, Next(s, a[0], limit), a[1..], t, b, u);
    }
  }

  lemma AndThen(limit: nat, s: State, a: seq<Label>, t: State, l: Label) returns (b: seq<Label>)
    requires Leads(limit, s, a, t) && Enabled(limit, t, l)
    ensures b == a + [l] && Leads(limit, s, b, Next(t, l, limit))
  {
    var u := Next(t, l, limit);
    assert Legal(limit, u, []) && Run(limit, u, []) == u;
    assert [l][0] == l && [l][1..] == [];
    assert Leads(limit, t, [l], u);
    Append(limit, s, a, t, [l], Next(t, l, limit));
    b := a + [l];
  }

  /** "a" was saved, n wrong attempts were compared and `count` of them are counted. */
  ghost predicate Wrong(s: State, count: nat, n: nat) {
    && s.key == Some(Record(Some("a"), count)) && s.epoch == 1
    && s.compared == multiset{}[1 := count + n] && s.lost == multiset{}
    && |s.verifiers| == n
    && forall v :: v in s.verifiers ==> v < n
  }

  /** One more verifier compares a wrong password before anybody else goes on. */
  lemma Attempt(limit: nat, s: State, ls: seq<Label>, count: nat, n: nat) returns (t: State, more: seq<Label>)
    requires Leads(limit, INIT, ls, s) && Wrong(s, count, n) && n < limit && count < MAX_TRIES
    ensures Leads(limit, INIT, more, t) && Wrong(t, count, n + 1)
    ensures n in t.verifiers && t.verifiers[n] == Compared(false, true, 1)
  {
    more := AndThen(limit, INIT, ls, s, Begin(n));
    var a := Next(s, Begin(n), limit);
    more := AndThen(limit, INIT, more, a, Load(n, Done));
    var b := Next(a, Load(n, Done), limit);
    assert b == s.(verifiers := s.verifiers[n := Checked(Some("a"), 1)]);
    more := AndThen(limit, INIT, more, b, Compare(n, "b"));
    t := Next(b, Compare(n, "b"), limit);
    WrongMore(s, t, count, n);
  }

  lemma WrongMore(s: State, t: State, count: nat, n: nat)
    requires Wrong(s, count, n)
    requires t == s.(verifiers := s.verifiers[n := Compared(false, true, 1)], compared := s.compared + multiset{1})
    ensures Wrong(t, count, n + 1)
  {
    assert n !in s.verifiers;
    assert t.verifiers.Keys == s.verifiers.Keys + {n};
    assert |t.verifiers.Keys| == n + 1;
  }

  /** A lone verifier's attempt is counted. */
  lemma CountedAttempt(limit: nat, s: State, ls: seq<Label>, count: nat) returns (t: State, more: seq<Label>)
    requires Leads(limit, INIT, ls, s) && Wrong(s, count, 0) && 0 < limit && count < MAX_TRIES
    ensures Leads(limit, INIT, more, t) && Wrong(t, count + 1, 0)
  {
    var a;
    a, more := Attempt(limit, s, ls, count, 0);
    more := AndThen(limit, INIT, more, a, Finish(0, Done));
    t := Next(a, Finish(0, Done), limit);
    assert |a.verifiers.Keys| == 1 && 0 in a.verifiers.Keys;
    assert a.verifiers.Keys == {0} by {
      SubsetSize(a.verifiers.Keys - {0}, a.verifiers.Keys);
      assert |a.verifiers.Keys - {0}| == 0;
    }
    assert t.verifiers == map[];
  }

  lemma {:induction false} Crowd(limit: nat, n: nat) returns (t: State, ls: seq<Label>)
    requires n <= limit && 0 < limit
    ensures Leads(limit, INIT, ls, t) && Wrong(t, 2, n)
  {
    if n == 0 {
      assert Leads(limit, INIT, [], INIT);
      ls := AndThen(limit, INIT, [], INIT, Save("a"));
      t := Next(INIT, Save("a"), limit);
      t, ls := CountedAttempt(limit, t, ls, 0);
      t, ls := CountedAttempt(limit, t, ls, 1);
    } else {
      t, ls := Crowd(limit, n - 1);
      t, ls := Attempt(limit, t, ls, 2, n - 1);
    }
  }

  /** Some run without a lost trace compares one password 2 + limit times. */
  lemma AttemptBudgetReached(limit: nat) returns (ls: seq<Label>, e: nat)
    requires 0 < limit
    ensures Legal(limit, INIT, ls)
    ensures var s := Run(limit, INIT, ls); s.compared[e] == 2 + limit && s.lost == multiset{}
  {
    var t;
    t, ls := Crowd(limit, limit);
    e := 1;
  }

  // ----- the calls as they are written

  datatype Result = Ok | KeyNotFound | TooManyAttempts | InvalidOtp | IncrementFailed

  function OtpKey(email: string): string {
    "users:otp:" + email
  }

  function KeyOf(hashes: map<string, Record>, email: string): Option<Record> {
    if OtpKey(email) in hashes then Some(hashes[OtpKey(email)]) else None
  }

  /** One undisturbed call: what it answers and what it leaves. */
  function VerifyAlone(key: Option<Record>, sent: string, get: Outcome, last: Outcome): (Option<Record>, Result) {
    if !get.Ok() || key.None? then (key, KeyNotFound)
    else if key.value.count >= MAX_TRIES then (if last.Applied() then None else key, TooManyAttempts)
    else if Verifies(key.value.otp, sent) then (if last.Applied() then None else key, Ok)
    else (if last.Applied() then Incremented(key) else key, if last.Ok() then InvalidOtp else IncrementFailed)
  }

  class OtpStore {
    var hashes: map<string, Record>

    constructor ()
      ensures hashes == map[]
    {
      hashes := map[];
    }

    method SaveOTP(email: string, otp: string, set_: Outcome, expire: Outcome) returns (ok: bool)
      modifies this
      ensures ok <==> set_.Ok() && expire.Ok()
      ensures KeyOf(hashes, email) == if set_.Applied() then Some(Record(Some(otp), 0)) else KeyOf(old(hashes), email)
      ensures forall other :: other != email ==> KeyOf(hashes, other) == KeyOf(old(hashes), other)
    {
      KeysApart(email);
      if set_.Applied() {
        hashes := hashes[OtpKey(email) := Record(Some(otp), 0)];
      }
      if !set_.Ok() {
        return false;
      }
      ok := expire.Ok();
    }

    method VerifyOTP(email: string, sent: string, get: Outcome, last: Outcome) returns (r: Result)
      modifies this
      ensures (KeyOf(hashes, email), r) == VerifyAlone(KeyOf(old(hashes), email), sent, get, last)
      // the stored text, and no other, is accepted, at most three attempts long
      ensures var key := KeyOf(old(hashes), email);
        && (r == Ok <==> get.Ok() && key.Some? && key.value.count < 3 && key.value.otp == Some(sent))
        && (r == KeyNotFound <==> !get.Ok() || key.None?)
        && (r == TooManyAttempts <==> get.Ok() && key.Some? && key.value.count >= 3)
        && (r == InvalidOtp ==> last.Ok()) && (r == IncrementFailed ==> !last.Ok())
      // a wrong text is counted, an accepted or exhausted password is deleted
      ensures var key := KeyOf(old(hashes), email);
        && (r == KeyNotFound || last.Refused? ==> KeyOf(hashes, email) == key)
        && ((r == Ok || r == TooManyAttempts) && last.Applied() ==> KeyOf(hashes, email) == None)
        && ((r == InvalidOtp || r == IncrementFailed) && last.Applied() ==>
              KeyOf(hashes, email) == Some(Record(key.value.otp, key.value.count + 1)))
      ensures forall other :: other != email ==> KeyOf(hashes, other) == KeyOf(old(hashes), other)
    {
      KeysApart(email);
      var key := OtpKey(email);
      if !get.Ok() || key !in hashes {
        return KeyNotFound;
      }
      var data := hashes[key];
      if data.count >= MAX_TRIES {
        if last.Applied() {
          hashes := hashes - {key};
        }
        return TooManyAttempts;
      }
      if !Verifies(data.otp, sent) {
        if last.Applied() {
          hashes := hashes[key := data.(count := data.count + 1)];
        }
        return if last.Ok() then InvalidOtp else IncrementFailed;
      }
      if last.Applied() {
        hashes := hashes - {key};
      }
      r := Ok;
    }
  }

  lemma KeysApart(email: string)
    ensures forall other :: other != email ==> OtpKey(other) != OtpKey(email)
  {
    forall other | OtpKey(other) == OtpKey(email)
      ensures other == email
    {
      assert other == OtpKey(other)[|"users:otp:"|..];
      assert email == OtpKey(email)[|"users:otp:"|..];
    }
  }

  /** An undisturbed call is a path of the machine. */
  lemma VerifyIsPath(limit: nat, s: State, v: nat, sent: string, get: Outcome, last: Outcome) returns (ls: seq<Label>)
    requires v !in s.verifiers && |s.verifiers| < limit
    ensures Legal(limit, s, ls)
    ensures Run(limit, s, ls).key == VerifyAlone(s.key, sent, get, last).0
    ensures Run(limit, s, ls).verifiers == s.verifiers
    ensures
      if !get.Ok() || s.key.None? then ls == [Begin(v), Load(v, get)]
      else if s.key.value.count >= 3 then ls == [Begin(v), Load(v, get), Finish(v, last)]
      else ls == [Begin(v), Load(v, get), Compare(v, sent), Finish(v, last)]
  {
    var b;
    b, ls := BeginAndLoad(limit, s, v, get);
    if v in b.verifiers {
      b, ls := CompareAndFinish(limit, s, ls, b, v, sent, last);
    }
  }

  lemma BeginAndLoad(limit: nat, s: State, v: nat, get: Outcome) returns (t: State, ls: seq<Label>)
    requires v !in s.verifiers && |s.verifiers| < limit
    ensures ls == [Begin(v), Load(v, get)]
    ensures Leads(limit, s, ls, t) && t.key == s.key && t.verifiers - {v} == s.verifiers
    ensures v in t.verifiers <==> get.Ok() && s.key.Some?
    ensures v !in t.verifiers ==> t.verifiers == s.verifiers
    ensures v in t.verifiers ==>
      t.verifiers[v] == if s.key.value.count >= MAX_TRIES then Blocked else Checked(s.key.value.otp, s.epoch)
  {
    t := Loaded(limit, s, v, get);
    assert Leads(limit, s, [], s);
    ls := AndThen(limit, s, [], s, Begin(v));
    ls := AndThen(limit, s, ls, Next(s, Begin(v), limit), Load(v, get));
  }

  lemma Loaded(limit: nat, s: State, v: nat, get: Outcome) returns (t: State)
    requires v !in s.verifiers && |s.verifiers| < limit
    ensures Enabled(limit, s, Begin(v)) && Enabled(limit, Next(s, Begin(v), limit), Load(v, get))
    ensures t == Next(Next(s, Begin(v), limit), Load(v, get), limit)
    ensures t.key == s.key && t.verifiers - {v} == s.verifiers
    ensures v in t.verifiers <==> get.Ok() && s.key.Some?
    ensures v !in t.verifiers ==> t.verifiers == s.verifiers
    ensures v in t.verifiers ==>
      t.verifiers[v] == if s.key.value.count >= MAX_TRIES then Blocked else Checked(s.key.value.otp, s.epoch)
  {
    var b := s.(verifiers := s.verifiers[v := Started]);
    t := NextLoad(b, v, get);
    PutAndTake(s.verifiers, v, Started, if v in t.verifiers then t.verifiers[v] else Started);
  }

  lemma CompareAndFinish(limit: nat, s: State, ls: seq<Label>, b: State, v: nat, sent: string, last: Outcome)
    returns (t: State, more: seq<Label>)
    requires Leads(limit, s, ls, b) && v in b.verifiers && (b.verifiers[v].Checked? || b.verifiers[v].Blocked?)
    ensures more == ls + (if b.verifiers[v].Checked? then [Compare(v, sent)] else []) + [Finish(v, last)]
    ensures Leads(limit, s, more, t) && t.verifiers == b.verifiers - {v}
    ensures
      var p := b.verifiers[v];
      t.key == if !last.Applied() then b.key
               else if p.Checked? && !Verifies(p.otp, sent) then Incremented(b.key) else None
  {
    t, more := b, ls;
    if b.verifiers[v].Checked? {
      more := AndThen(limit, s, more, t, Compare(v, sent));
      t := Next(t, Compare(v, sent), limit);
    }
    more := AndThen(limit, s, more, t, Finish(v, last));
    t := Next(t, Finish(v, last), limit);
    assert t.verifiers == b.verifiers - {v};
  }
}
