/**
  The budget of attempts inside registration. Seen from one address, every run of the account
  machine is a run of the one-time-password machine; so each staging row's password is
  compared only as often as that machine allows.
*/
module OtpBudget {
  import opened Jobs
  import opened Sets
  import opened Accounts
  import Otp

  /** A verification of the address between its look-up and what it does to the hash. */
  predicate InFlight(call: Call, e: string) {
    (call.Found? || call.Loaded? || call.Blocked? || call.Mismatched? || call.Matched?) && call.email == e
  }

  function Verifiers(s: State, e: string): set<nat> {
    set p | p in s.calls && InFlight(s.calls[p], e)
  }

  function KeyOf(s: State, e: string): Option<Otp.Record> {
    if e in s.hashes then Some(Otp.Record(OtpText(s.hashes[e].saved), s.hashes[e].count)) else None
  }

  /** The verifier of the other machine that a call is; `rows` are the staging rows whose
      passwords were saved, in the order of the epochs. */
  ghost predicate IsVerifier(call: Call, v: Otp.Verifier, rows: seq<nat>) {
    match call
    case Found(_) => v == Otp.Started
    case Loaded(_, saved) =>
      && v.Checked? && v.otp == OtpText(saved)
      && (saved.Some? ==> 1 <= v.epoch <= |rows| && rows[v.epoch - 1] == saved.value.sid)
    case Blocked(_) => v == Otp.Blocked
    case Mismatched(_) => v.Compared? && !v.ok
    case Matched(_, _) => v.Compared? && v.ok
    case _ => false
  }

  ghost predicate RowsOk(s: State, e: string, rows: seq<nat>) {
    && (forall i, j :: 0 <= i < j < |rows| ==> rows[i] != rows[j])
    && (forall i :: 0 <= i < |rows| ==> SavedFor(s.otps, e, rows[i]))
    && (forall k :: 0 <= k < |s.otps| && s.otps[k].email == e ==> s.otps[k].sid in rows)
  }

  ghost predicate Sees(s: State, o: Otp.State, e: string, rows: seq<nat>) {
    && o.epoch == |rows| && RowsOk(s, e, rows)
    && o.key == KeyOf(s, e)
    && (e in s.hashes && s.hashes[e].saved.Some? ==> rows != [] && rows[|rows| - 1] == s.hashes[e].saved.value.sid)
    && o.verifiers.Keys == Verifiers(s, e)
    && forall p :: p in o.verifiers ==> IsVerifier(s.calls[p], o.verifiers[p], rows)
  }

  // ----- what is counted

  predicate Hits(s: State, l: Label, e: string, sid: nat)
    requires Enabled(s, l)
  {
    l.CompareOtp? && s.calls[l.p].email == e && s.calls[l.p].saved.Some? && s.calls[l.p].saved.value.sid == sid
  }

  /** A verification of the address that compared ends without a trace. */
  predicate LeavesNoTrace(s: State, l: Label, e: string)
    requires Enabled(s, l)
  {
    && (l.FinishOtp? || l.Crash?)
    && (s.calls[l.p].Mismatched? || s.calls[l.p].Matched?) && s.calls[l.p].email == e
    && (l.FinishOtp? ==> !l.o.Applied())
  }

  /** How often the password of the address's staging row sid is compared. */
  ghost function Comparisons(s: State, ls: seq<Label>, e: string, sid: nat): nat
    requires Legal(s, ls)
    decreases |ls|
  {
    if ls == [] then 0
    else (if Hits(s, ls[0], e, sid) then 1 else 0) + Comparisons(Next(s, ls[0]), ls[1..], e, sid)
  }

  ghost function Untraced(s: State, ls: seq<Label>, e: string): nat
    requires Legal(s, ls)
    decreases |ls|
  {
    if ls == [] then 0
    else (if LeavesNoTrace(s, ls[0], e) then 1 else 0) + Untraced(Next(s, ls[0]), ls[1..], e)
  }

  /** At most `limit` verifications of the address are in flight at any time. */
  ghost predicate Within(s: State, ls: seq<Label>, e: string, limit: nat)
    requires Legal(s, ls)
    decreases |ls|
  {
    |Verifiers(s, e)| <= limit && (ls == [] || Within(Next(s, ls[0]), ls[1..], e, limit))
  }

  // ----- one step

  /** What the step is for the other machine, if it is one there. */
  function Shown(s: State, l: Label, e: string): Option<Otp.Label>
    requires Enabled(s, l)
  {
    match l
    case SaveOtp(p, otp, o) => if s.calls[p].email == e && o.Applied() then Some(Otp.Save(otp)) else None
    case Verify(p, _, email) => if email == e then Some(Otp.Begin(p)) else None
    case LoadOtp(p, o) => if s.calls[p].email == e then Some(Otp.Load(p, o)) else None
    case CompareOtp(p, sent) => if s.calls[p].email == e then Some(Otp.Compare(p, sent)) else None
    case FinishOtp(p, o) => if s.calls[p].email == e then Some(Otp.Finish(p, o)) else None
    case ExpireOtp(email) => if email == e then Some(Otp.Expire) else None
    case Crash(p) => if InFlight(s.calls[p], e) then Some(Otp.Crash(p)) else None
    case _ => None
  }

  function RowsAfter(s: State, l: Label, e: string, rows: seq<nat>): seq<nat>
    requires Enabled(s, l)
  {
    if l.SaveOtp? && s.calls[l.p].email == e && l.o.Applied() then rows + [s.calls[l.p].sid] else rows
  }

  function After(o: Otp.State, ol: Option<Otp.Label>, limit: nat): Otp.State
    requires ol.Some? ==> Otp.Enabled(limit, o, ol.value)
  {
    if ol.Some? then Otp.Next(o, ol.value, limit) else o
  }

  lemma SavedRowStays(s: State, l: Label, e: string, sid: nat)
    requires Enabled(s, l) && SavedFor(s.otps, e, sid)
    ensures SavedFor(Next(s, l).otps, e, sid)
  {
    var t := Next(s, l);
    if l.SaveOtp? {
      var k :| 0 <= k < |s.otps| && s.otps[k].email == e && s.otps[k].sid == sid;
      assert t.otps[k] == s.otps[k];
    } else {
      StepFrame(s, l);
    }
  }

  lemma RowsStay(s: State, l: Label, e: string, rows: seq<nat>)
    requires Enabled(s, l) && RowsOk(s, e, rows) && !(l.SaveOtp? && l.o.Applied() && s.calls[l.p].email == e)
    ensures RowsOk(Next(s, l), e, rows)
  {
    forall i | 0 <= i < |rows|
      ensures SavedFor(Next(s, l).otps, e, rows[i])
    {
      SavedRowStays(s, l, e, rows[i]);
    }
    if !l.SaveOtp? {
      StepFrame(s, l);
    }
  }

  lemma RowsGrow(s: State, l: Label, e: string, rows: seq<nat>)
    requires OtpsOk(s) && Enabled(s, l) && RowsOk(s, e, rows) && l.SaveOtp? && l.o.Applied() && s.calls[l.p].email == e
    ensures RowsOk(Next(s, l), e, rows + [s.calls[l.p].sid])
  {
    var t := Next(s, l);
    var sid := s.calls[l.p].sid;
    forall i | 0 <= i < |rows|
      ensures SavedFor(t.otps, e, rows[i])
    {
      SavedRowStays(s, l, e, rows[i]);
    }
    assert Registering(s, l.p, sid);
    assert t.otps[|s.otps|].sid == sid && t.otps[|s.otps|].email == e;
    assert SavedFor(t.otps, e, sid);
    assert Unsaved(s.otps, sid);
    forall i | 0 <= i < |rows|
      ensures rows[i] != sid
    {
      var k :| 0 <= k < |s.otps| && s.otps[k].email == e && s.otps[k].sid == rows[i];
    }
  }

  /** Steps of other addresses, and steps outside verification, show nothing. */
  lemma NothingShown(s: State, l: Label, o: Otp.State, e: string, rows: seq<nat>)
    requires OtpsOk(s) && Enabled(s, l) && Sees(s, o, e, rows) && Shown(s, l, e).None?
    ensures Sees(Next(s, l), o, e, rows)
  {
    var t := Next(s, l);
    RowsStay(s, l, e, rows);
    SameCalls(s, l, e);
    SameHash(s, l, e);
  }

  lemma SameCalls(s: State, l: Label, e: string)
    requires Enabled(s, l) && Shown(s, l, e).None?
    ensures Verifiers(Next(s, l), e) == Verifiers(s, e)
    ensures forall p :: p in Verifiers(s, e) ==> Next(s, l).calls[p] == s.calls[p]
  {
    StepOthers(s, l);
    OthersRemain(s, l);
  }

  lemma OthersRemain(s: State, l: Label)
    requires Enabled(s, l)
    ensures forall q :: q in s.calls && !Acts(l, q) ==> q in Next(s, l).calls && Next(s, l).calls[q] == s.calls[q]
  {
  }

  lemma SameHash(s: State, l: Label, e: string)
    requires Enabled(s, l) && Shown(s, l, e).None?
    ensures (e in Next(s, l).hashes <==> e in s.hashes) && (e in s.hashes ==> Next(s, l).hashes[e] == s.hashes[e])
  {
    if !l.SaveOtp? && !l.FinishOtp? && !l.ExpireOtp? {
      StepFrame(s, l);
    }
  }

  lemma SaveShows(s: State, l: Label, o: Otp.State, e: string, rows: seq<nat>, limit: nat)
    requires OtpsOk(s) && Enabled(s, l) && Sees(s, o, e, rows) && l.SaveOtp? && Shown(s, l, e).Some?
    ensures Sees(Next(s, l), Otp.Next(o, Shown(s, l, e).value, limit), e, rows + [s.calls[l.p].sid])
  {
    RowsGrow(s, l, e, rows);
    OthersRemain(s, l);
    StepOthers(s, l);
    assert Verifiers(Next(s, l), e) == Verifiers(s, e);
  }

  lemma OneMoreVerifier(s: State, l: Label, e: string)
    requires Enabled(s, l) && l.Verify? && l.email == e
    ensures l.p !in Verifiers(s, e) && Verifiers(Next(s, l), e) == Verifiers(s, e) + {l.p}
    ensures |Verifiers(Next(s, l), e)| == |Verifiers(s, e)| + 1
  {
  }

  lemma BeginSees(s: State, t: State, o: Otp.State, e: string, rows: seq<nat>, p: nat)
    requires Sees(s, o, e, rows) && p !in s.calls
    requires t.calls == s.calls[p := Found(e)] && t.otps == s.otps && t.hashes == s.hashes
    requires Verifiers(t, e) == Verifiers(s, e) + {p}
    ensures Sees(t, o.(verifiers := o.verifiers[p := Otp.Started]), e, rows)
  {
    forall q | q in o.verifiers
      ensures IsVerifier(t.calls[q], o.verifiers[q], rows)
    {
      assert q in Verifiers(s, e);
    }
  }

  lemma VerifyShows(s: State, l: Label, o: Otp.State, e: string, rows: seq<nat>, limit: nat)
    requires Enabled(s, l) && Sees(s, o, e, rows) && l.Verify? && l.email == e && |Verifiers(Next(s, l), e)| <= limit
    ensures Otp.Enabled(limit, o, Otp.Begin(l.p)) && Sees(Next(s, l), Otp.Next(o, Otp.Begin(l.p), limit), e, rows)
  {
    OneMoreVerifier(s, l, e);
    assert |o.verifiers| == |o.verifiers.Keys|;
    BeginSees(s, Next(s, l), o, e, rows, l.p);
  }

  /** One verifier moves on, or ends, and nothing else changes. */
  lemma OneMoves(s: State, t: State, o: Otp.State, u: Otp.State, e: string, rows: seq<nat>, p: nat)
    requires Sees(s, o, e, rows) && p in Verifiers(s, e)
    requires t.otps == s.otps && t.hashes == s.hashes && u.key == o.key && u.epoch == o.epoch
    requires t.calls - {p} == s.calls - {p} && u.verifiers - {p} == o.verifiers - {p}
    requires p in u.verifiers <==> p in t.calls
    requires p in t.calls ==> InFlight(t.calls[p], e) && IsVerifier(t.calls[p], u.verifiers[p], rows)
    ensures Sees(t, u, e, rows)
  {
    forall q | q != p
      ensures (q in t.calls <==> q in s.calls) && (q in t.calls ==> t.calls[q] == s.calls[q])
      ensures (q in u.verifiers <==> q in o.verifiers) && (q in u.verifiers ==> u.verifiers[q] == o.verifiers[q])
    {
      assert q in t.calls <==> q in t.calls - {p};
      assert q in s.calls <==> q in s.calls - {p};
      assert q in u.verifiers <==> q in u.verifiers - {p};
      assert q in o.verifiers <==> q in o.verifiers - {p};
      assert q in t.calls ==> t.calls[q] == (t.calls - {p})[q];
      assert q in u.verifiers ==> u.verifiers[q] == (u.verifiers - {p})[q];
    }
    assert u.verifiers.Keys == Verifiers(t, e);
  }

  lemma LoadShows(s: State, l: Label, o: Otp.State, e: string, rows: seq<nat>, limit: nat)
    requires Enabled(s, l) && Sees(s, o, e, rows) && l.LoadOtp? && s.calls[l.p].email == e
    ensures Otp.Enabled(limit, o, Otp.Load(l.p, l.o)) && Sees(Next(s, l), Otp.Next(o, Otp.Load(l.p, l.o), limit), e, rows)
  {
    assert l.p in Verifiers(s, e);
    assert IsVerifier(s.calls[l.p], o.verifiers[l.p], rows);
    OneMoves(s, Next(s, l), o, Otp.Next(o, Otp.Load(l.p, l.o), limit), e, rows, l.p);
  }

  lemma CompareShows(s: State, l: Label, o: Otp.State, e: string, rows: seq<nat>, limit: nat)
    requires Enabled(s, l) && Sees(s, o, e, rows) && l.CompareOtp? && s.calls[l.p].email == e
    ensures Otp.Enabled(limit, o, Otp.Compare(l.p, l.sent))
    ensures Sees(Next(s, l), Otp.Next(o, Otp.Compare(l.p, l.sent), limit), e, rows)
  {
    RowsStay(s, l, e, rows);
    var t := Next(s, l);
    assert l.p in Verifiers(s, e);
    assert Verifiers(t, e) == Verifiers(s, e);
  }

  lemma FinishShows(s: State, l: Label, o: Otp.State, e: string, rows: seq<nat>, limit: nat)
    requires Enabled(s, l) && Sees(s, o, e, rows) && l.FinishOtp? && s.calls[l.p].email == e
    ensures Otp.Enabled(limit, o, Otp.Finish(l.p, l.o)) && Sees(Next(s, l), Otp.Next(o, Otp.Finish(l.p, l.o), limit), e, rows)
  {
    RowsStay(s, l, e, rows);
    var t := Next(s, l);
    assert l.p in Verifiers(s, e);
    assert Verifiers(t, e) == Verifiers(s, e) - {l.p};
  }

  lemma CrashShows(s: State, l: Label, o: Otp.State, e: string, rows: seq<nat>, limit: nat)
    requires Enabled(s, l) && Sees(s, o, e, rows) && l.Crash? && InFlight(s.calls[l.p], e)
    ensures Otp.Enabled(limit, o, Otp.Crash(l.p)) && Sees(Next(s, l), Otp.Next(o, Otp.Crash(l.p), limit), e, rows)
  {
    RowsStay(s, l, e, rows);
    assert l.p in Verifiers(s, e);
    assert Verifiers(Next(s, l), e) == Verifiers(s, e) - {l.p};
  }

  lemma StepShows(s: State, l: Label, o: Otp.State, e: string, rows: seq<nat>, limit: nat)
    requires OtpsOk(s) && Enabled(s, l) && Sees(s, o, e, rows) && |Verifiers(Next(s, l), e)| <= limit
    ensures Shown(s, l, e).Some? ==> Otp.Enabled(limit, o, Shown(s, l, e).value)
    ensures Sees(Next(s, l), After(o, Shown(s, l, e), limit), e, RowsAfter(s, l, e, rows))
  {
    if Shown(s, l, e).None? {
      NothingShown(s, l, o, e, rows);
    } else {
      match l
      case SaveOtp(_, _, _) => SaveShows(s, l, o, e, rows, limit);
      case Verify(_, _, _) => VerifyShows(s, l, o, e, rows, limit);
      case LoadOtp(_, _) => LoadShows(s, l, o, e, rows, limit);
      case CompareOtp(_, _) => CompareShows(s, l, o, e, rows, limit);
      case FinishOtp(_, _) => FinishShows(s, l, o, e, rows, limit);
      case ExpireOtp(_) => ExpireShows(s, l, o, e, rows, limit);
      case Crash(_) => CrashShows(s, l, o, e, rows, limit);
    }
  }

  lemma ExpireShows(s: State, l: Label, o: Otp.State, e: string, rows: seq<nat>, limit: nat)
    requires Enabled(s, l) && Sees(s, o, e, rows) && l.ExpireOtp? && l.email == e
    ensures Sees(Next(s, l), Otp.Next(o, Otp.Expire, limit), e, rows)
  {
    RowsStay(s, l, e, rows);
    assert Verifiers(Next(s, l), e) == Verifiers(s, e);
  }

  /** A comparison with the password of row i is one of epoch i + 1, and the other way round. */
  lemma CountStep(s: State, l: Label, o: Otp.State, e: string, rows: seq<nat>, limit: nat, i: nat)
    requires Enabled(s, l) && Sees(s, o, e, rows) && i < |rows|
    requires Shown(s, l, e).Some? ==> Otp.Enabled(limit, o, Shown(s, l, e).value)
    ensures After(o, Shown(s, l, e), limit).compared[i + 1] == o.compared[i + 1] + if Hits(s, l, e, rows[i]) then 1 else 0
  {
    if l.CompareOtp? && s.calls[l.p].email == e {
      assert l.p in Verifiers(s, e);
    }
  }

  /** No epoch that has not begun is compared. */
  lemma LaterEpoch(s: State, l: Label, o: Otp.State, e: string, rows: seq<nat>, limit: nat, i: nat)
    requires Enabled(s, l) && Sees(s, o, e, rows) && i >= |rows|
    requires Shown(s, l, e).Some? ==> Otp.Enabled(limit, o, Shown(s, l, e).value)
    ensures After(o, Shown(s, l, e), limit).compared[i + 1] == o.compared[i + 1]
  {
    if l.CompareOtp? && s.calls[l.p].email == e {
      assert l.p in Verifiers(s, e);
    }
  }

  /** Whatever is compared was saved. */
  lemma HitsSaved(s: State, l: Label, e: string, rows: seq<nat>, sid: nat)
    requires HashesOk(s) && Enabled(s, l) && RowsOk(s, e, rows) && Hits(s, l, e, sid)
    ensures sid in rows
  {
    assert SavedOk(s.otps, e, s.calls[l.p].saved);
    var k :| 0 <= k < |s.otps| && s.otps[k] == s.calls[l.p].saved.value;
  }

  lemma LostStep(s: State, l: Label, o: Otp.State, e: string, rows: seq<nat>, limit: nat)
    requires Enabled(s, l) && Sees(s, o, e, rows)
    requires Shown(s, l, e).Some? ==> Otp.Enabled(limit, o, Shown(s, l, e).value)
    ensures |After(o, Shown(s, l, e), limit).lost| <= |o.lost| + if LeavesNoTrace(s, l, e) then 1 else 0
  {
    if l.FinishOtp? || l.Crash? {
      assert Shown(s, l, e).Some? ==> l.p in Verifiers(s, e);
    }
  }

  // ----- whole runs

  /** From o to v the other machine counted the comparisons of this run, epoch by epoch, and no
      more lost traces than the run left. */
  ghost predicate Tallies(s: State, ls: seq<Label>, o: Otp.State, v: Otp.State, e: string, all: seq<nat>)
    requires Legal(s, ls)
  {
    && (forall i :: 0 <= i < |all| ==> v.compared[i + 1] == o.compared[i + 1] + Comparisons(s, ls, e, all[i]))
    && |v.lost| <= |o.lost| + Untraced(s, ls, e)
  }

  lemma TallyStep(s: State, ls: seq<Label>, o: Otp.State, u: Otp.State, v: Otp.State, e: string, all: seq<nat>)
    requires Legal(s, ls) && ls != [] && Tallies(Next(s, ls[0]), ls[1..], u, v, e, all)
    requires forall i :: 0 <= i < |all| ==> u.compared[i + 1] == o.compared[i + 1] + if Hits(s, ls[0], e, all[i]) then 1 else 0
    requires |u.lost| <= |o.lost| + if LeavesNoTrace(s, ls[0], e) then 1 else 0
    ensures Tallies(s, ls, o, v, e, all)
  {
  }

  /** The run as the other machine sees it: its labels, its end, and the rows of its epochs. */
  lemma {:induction false} RunShows(s: State, ls: seq<Label>, o: Otp.State, e: string, rows: seq<nat>, limit: nat)
    returns (ols: seq<Otp.Label>, all: seq<nat>)
    requires Inv(s) && Legal(s, ls) && Within(s, ls, e, limit) && Sees(s, o, e, rows)
    ensures Otp.Legal(limit, o, ols) && Sees(Run(s, ls), Otp.Run(limit, o, ols), e, all)
    ensures rows <= all && Tallies(s, ls, o, Otp.Run(limit, o, ols), e, all)
    decreases |ls|
  {
    if ls == [] {
      ols, all := [], rows;
    } else {
      var u := StepTogether(s, ls[0], o, e, rows, limit);
      ols, all := RunShows(Next(s, ls[0]), ls[1..], u, e, RowsAfter(s, ls[0], e, rows), limit);
      CountsStep(s, ls[0], o, e, rows, all, limit);
      TallyStep(s, ls, o, u, Otp.Run(limit, u, ols), e, all);
      ols := Prefixed(o, Shown(s, ls[0], e), ols, limit);
    }
  }

  lemma StepTogether(s: State, l: Label, o: Otp.State, e: string, rows: seq<nat>, limit: nat) returns (u: Otp.State)
    requires Inv(s) && Enabled(s, l) && Sees(s, o, e, rows) && |Verifiers(Next(s, l), e)| <= limit
    ensures Inv(Next(s, l)) && (Shown(s, l, e).Some? ==> Otp.Enabled(limit, o, Shown(s, l, e).value))
    ensures u == After(o, Shown(s, l, e), limit) && Sees(Next(s, l), u, e, RowsAfter(s, l, e, rows))
  {
    StepShows(s, l, o, e, rows, limit);
    StepKeepsInv(s, l);
    u := After(o, Shown(s, l, e), limit);
  }

  lemma CountsStep(s: State, l: Label, o: Otp.State, e: string, rows: seq<nat>, all: seq<nat>, limit: nat)
    requires HashesOk(s) && Enabled(s, l) && Sees(s, o, e, rows)
    requires Shown(s, l, e).Some? ==> Otp.Enabled(limit, o, Shown(s, l, e).value)
    requires RowsAfter(s, l, e, rows) <= all && forall j, k :: 0 <= j < k < |all| ==> all[j] != all[k]
    ensures rows <= all
    ensures forall i :: 0 <= i < |all| ==>
      After(o, Shown(s, l, e), limit).compared[i + 1] == o.compared[i + 1] + if Hits(s, l, e, all[i]) then 1 else 0
    ensures |After(o, Shown(s, l, e), limit).lost| <= |o.lost| + if LeavesNoTrace(s, l, e) then 1 else 0
  {
    LostStep(s, l, o, e, rows, limit);
    forall i | 0 <= i < |all|
      ensures After(o, Shown(s, l, e), limit).compared[i + 1] == o.compared[i + 1] + if Hits(s, l, e, all[i]) then 1 else 0
    {
      EpochStep(s, l, o, e, rows, all, limit, i);
    }
  }

  lemma Prefixed(o: Otp.State, ol: Option<Otp.Label>, ols: seq<Otp.Label>, limit: nat) returns (r: seq<Otp.Label>)
    requires ol.Some? ==> Otp.Enabled(limit, o, ol.value)
    requires Otp.Legal(limit, After(o, ol, limit), ols)
    ensures Otp.Legal(limit, o, r) && Otp.Run(limit, o, r) == Otp.Run(limit, After(o, ol, limit), ols)
  {
    r := ols;
    if ol.Some? {
      r := [ol.value] + ols;
      assert r[1..] == ols;
    }
  }

  /** Nothing is compared against an epoch that has not begun, nor against its row's password. */
  lemma EpochStep(s: State, l: Label, o: Otp.State, e: string, rows: seq<nat>, all: seq<nat>, limit: nat, i: nat)
    requires HashesOk(s) && Enabled(s, l) && Sees(s, o, e, rows)
    requires Shown(s, l, e).Some? ==> Otp.Enabled(limit, o, Shown(s, l, e).value)
    requires rows <= all && i < |all| && forall j, k :: 0 <= j < k < |all| ==> all[j] != all[k]
    ensures After(o, Shown(s, l, e), limit).compared[i + 1] == o.compared[i + 1] + if Hits(s, l, e, all[i]) then 1 else 0
  {
    if i < |rows| {
      assert all[i] == rows[i];
      CountStep(s, l, o, e, rows, limit, i);
    } else {
      LaterEpoch(s, l, o, e, rows, limit, i);
      if Hits(s, l, e, all[i]) {
        HitsSaved(s, l, e, rows, all[i]);
      }
    }
  }

  lemma StartSees(e: string)
    ensures Sees(INIT, Otp.INIT, e, [])
  {
    assert Verifiers(INIT, e) == {};
  }

  /** The password of one staging row is compared at most 2 + limit times, plus once for every
      verification of the address that ended without a trace, when at most `limit` of them are
      in flight at any time. */
  lemma ComparisonsBounded(ls: seq<Label>, e: string, sid: nat, limit: nat)
    requires Legal(INIT, ls) && Within(INIT, ls, e, limit) && SavedFor(Run(INIT, ls).otps, e, sid)
    ensures Comparisons(INIT, ls, e, sid) <= 2 + limit + Untraced(INIT, ls, e)
  {
    StartSees(e);
    InitIsFine();
    var ols, all := RunShows(INIT, ls, Otp.INIT, e, [], limit);
    var i :| 0 <= i < |all| && all[i] == sid;
    Otp.AttemptBudget(limit, ols, i + 1);
    AtMostAll(Otp.Run(limit, Otp.INIT, ols).lost, i + 1);
  }

  lemma AtMostAll(m: multiset<nat>, x: nat)
    ensures m[x] <= |m|
  {
    assert |m[x := 0]| + m[x] == |m|;
  }
}
