/**
  The refresh-token table as one stack of unrevoked tokens per user: what every statement
  does to the stacks, what is conserved while logins and refreshes interleave, and exactly
  when a token that was rotated away can come back.
*/
module RefreshTokens {
  import opened Jobs
  import opened Sets

  /** A signed token is its claims: signing is injective and adds nothing of its own. */
  datatype Token = Token(userId: int, email: string, expires: int, issued: int)

  /** The stored hash verifies exactly the hashed token, so a row keeps the token itself. */
  datatype TokenRow = TokenRow(userId: int, token: Token, expires: int, revoked: Option<int>)

  predicate Live(row: TokenRow, u: int) {
    row.userId == u && row.revoked.None?
  }

  /** The user's unrevoked rows, oldest first; rows stand in the order of created_at. */
  function Stack(rows: seq<TokenRow>, u: int): (r: seq<TokenRow>)
    ensures forall i :: 0 <= i < |r| ==> Live(r[i], u) && r[i] in rows
  {
    if rows == [] then []
    else
      var last := rows[|rows| - 1];
      var below := Stack(rows[..|rows| - 1], u);
      if Live(last, u) then below + [last] else below
  }

  function Top(stack: seq<TokenRow>): TokenRow
    requires stack != []
  {
    stack[|stack| - 1]
  }

  function Pop(stack: seq<TokenRow>): seq<TokenRow>
    requires stack != []
  {
    stack[..|stack| - 1]
  }

  /** SELECT id ... WHERE revoked_at IS NULL ORDER BY created_at DESC LIMIT 1 */
  function Newest(rows: seq<TokenRow>, u: int): (r: Option<nat>)
    ensures r.Some? <==> Stack(rows, u) != []
    ensures r.Some? ==> r.value < |rows| && rows[r.value] == Top(Stack(rows, u)) && Live(rows[r.value], u)
  {
    if rows == [] then None
    else if Live(rows[|rows| - 1], u) then Some(|rows| - 1)
    else Newest(rows[..|rows| - 1], u)
  }

  function Revoked(rows: seq<TokenRow>, u: int, now: int): seq<TokenRow> {
    match Newest(rows, u)
    case None => rows
    case Some(k) => rows[k := rows[k].(revoked := Some(now))]
  }

  /** ON DELETE CASCADE */
  function Without(rows: seq<TokenRow>, u: int): seq<TokenRow> {
    if rows == [] then []
    else
      var last := rows[|rows| - 1];
      Without(rows[..|rows| - 1], u) + if last.userId == u then [] else [last]
  }

  lemma Pushed(rows: seq<TokenRow>, row: TokenRow, u: int)
    requires row.revoked.None?
    ensures Stack(rows + [row], u) == Stack(rows, u) + if row.userId == u then [row] else []
  {
    assert (rows + [row])[..|rows|] == rows;
  }

  lemma {:induction false} Popped(rows: seq<TokenRow>, u: int, now: int, v: int)
    ensures Stack(Revoked(rows, u, now), v)
         == if u == v && Stack(rows, u) != [] then Pop(Stack(rows, u)) else Stack(rows, v)
  {
    if rows != [] {
      var n := |rows| - 1;
      var rest := rows[..n];
      if Live(rows[n], u) {
        assert Revoked(rows, u, now)[..n] == rest;
      } else {
        Popped(rest, u, now, v);
        assert Newest(rows, u) == Newest(rest, u);
        assert Revoked(rows, u, now)[..n] == Revoked(rest, u, now);
      }
    }
  }

  lemma {:induction false} Erased(rows: seq<TokenRow>, u: int, v: int)
    ensures Stack(Without(rows, u), v) == if u == v then [] else Stack(rows, v)
  {
    if rows != [] {
      var n := |rows| - 1;
      Erased(rows[..n], u, v);
      if rows[n].userId != u {
        assert Without(rows, u)[..|Without(rows, u)| - 1] == Without(rows[..n], u);
      } else {
        assert Without(rows, u) == Without(rows[..n], u);
      }
    }
  }

  // ----- logins and refreshes in any interleaving

  /** A call between its statements: about to store the login's token, about to revoke
      after `used` was accepted, or about to store the token that replaces it. */
  datatype Call =
    | LoggedIn(next: Token)
    | Accepted(used: Token, next: Token)
    | Rotated(next: Token)

  /** `logins` counts the stored login tokens of each user, `failed` the refreshes that
      revoked a token and never stored another. */
  datatype State = State(
    rows: seq<TokenRow>,
    gone: set<int>,
    calls: map<nat, Call>,
    logins: multiset<int>,
    failed: multiset<int>)

  const INIT := State([], {}, map[], multiset{}, multiset{})

  /** `now` is the clock when the token is verified, `later` when the row's expiry is. */
  datatype Label =
    | Login(p: nat, next: Token)
    | Check(p: nat, used: Token, next: Token, now: int, later: int)
    | Revoke(p: nat, now: int, o: Outcome)
    | Save(p: nat, expires: int, o: Outcome)
    | Crash(p: nat)
    | DeleteUser(u: int)

  predicate Enabled(s: State, l: Label) {
    match l
    case Login(p, next) => p !in s.calls && next.userId !in s.gone
    case Check(p, used, next, now, later) =>
      p !in s.calls && next.userId == used.userId && next.email == used.email && now <= later
    case Revoke(p, _, _) => p in s.calls && s.calls[p].Accepted?
    case Save(p, expires, _) => p in s.calls && !s.calls[p].Accepted? && s.calls[p].next.expires <= expires
    case Crash(p) => p in s.calls
    case DeleteUser(_) => true
  }

  /** What RefreshJwtToken demands of a token before it rotates it. */
  predicate Accepts(rows: seq<TokenRow>, x: Token, now: int, later: int) {
    var stack := Stack(rows, x.userId);
    now < x.expires && stack != [] && Top(stack).token == x && later <= Top(stack).expires
  }

  function NextRevoke(s: State, l: Label): State
    requires l.Revoke? && Enabled(s, l)
  {
    var u := s.calls[l.p].next.userId;
    if Newest(s.rows, u).None? || !l.o.Applied() then s.(calls := s.calls - {l.p})
    else if l.o.Ok() then
      s.(rows := Revoked(s.rows, u, l.now), calls := s.calls[l.p := Rotated(s.calls[l.p].next)])
    else
      s.(rows := Revoked(s.rows, u, l.now), calls := s.calls - {l.p}, failed := s.failed + multiset{u})
  }

  function NextSave(s: State, l: Label): State
    requires l.Save? && Enabled(s, l)
  {
    var call := s.calls[l.p];
    var u := call.next.userId;
    var applied := l.o.Applied() && u !in s.gone;
    s.(rows := if applied then s.rows + [TokenRow(u, call.next, l.expires, None)] else s.rows,
       calls := s.calls - {l.p},
       logins := if applied && call.LoggedIn? then s.logins + multiset{u} else s.logins,
       failed := if !applied && call.Rotated? then s.failed + multiset{u} else s.failed)
  }

  function Next(s: State, l: Label): State
    requires Enabled(s, l)
  {
    match l
    case Login(p, next) => s.(calls := s.calls[p := LoggedIn(next)])
    case Check(p, used, next, now, later) =>
      if Accepts(s.rows, used, now, later) then s.(calls := s.calls[p := Accepted(used, next)]) else s
    case Revoke(_, _, _) => NextRevoke(s, l)
    case Save(_, _, _) => NextSave(s, l)
    case Crash(p) =>
      s.(calls := s.calls - {p},
         failed := if s.calls[p].Rotated? then s.failed + multiset{s.calls[p].next.userId} else s.failed)
    case DeleteUser(u) => s.(rows := Without(s.rows, u), gone := s.gone + {u})
  }

  ghost predicate Legal(s: State, ls: seq<Label>)
    decreases |ls|
  {
    ls == [] || (Enabled(s, ls[0]) && Legal(Next(s, ls[0]), ls[1..]))
  }

  ghost function Run(s: State, ls: seq<Label>): State
    requires Legal(s, ls)
    decreases |ls|
  {
    if ls == [] then s else Run(Next(s, ls[0]), ls[1..])
  }

  /** What each step means for the user's stack: push, pop, clear or nothing. */
  function StackAfter(s: State, l: Label, u: int): seq<TokenRow>
    requires Enabled(s, l)
  {
    var stack := Stack(s.rows, u);
    if l.DeleteUser? then if l.u == u then [] else stack
    else if l.Revoke? && s.calls[l.p].next.userId == u && stack != [] && l.o.Applied() then Pop(stack)
    else if l.Save? && s.calls[l.p].next.userId == u && u !in s.gone && l.o.Applied() then
      stack + [TokenRow(u, s.calls[l.p].next, l.expires, None)]
    else stack
  }

  lemma RevokeStack(s: State, l: Label, u: int)
    requires Enabled(s, l) && l.Revoke?
    ensures Stack(Next(s, l).rows, u) == StackAfter(s, l, u)
  {
    Popped(s.rows, s.calls[l.p].next.userId, l.now, u);
  }

  lemma SaveStack(s: State, l: Label, u: int)
    requires Enabled(s, l) && l.Save?
    ensures Stack(Next(s, l).rows, u) == StackAfter(s, l, u)
  {
    Pushed(s.rows, TokenRow(s.calls[l.p].next.userId, s.calls[l.p].next, l.expires, None), u);
  }

  lemma StackStep(s: State, l: Label, u: int)
    requires Enabled(s, l)
    ensures Stack(Next(s, l).rows, u) == StackAfter(s, l, u)
  {
    match l
    case Revoke(_, _, _) => RevokeStack(s, l, u);
    case Save(_, _, _) => SaveStack(s, l, u);
    case DeleteUser(v) => Erased(s.rows, v, u);
    case _ =>
  }

  // ----- conservation

  /** Refreshes of this user that revoked and did not store yet. */
  ghost function Between(s: State, u: int): set<nat> {
    set p | p in s.calls && s.calls[p].Rotated? && s.calls[p].next.userId == u
  }

  ghost predicate Balanced(s: State, u: int) {
    if u in s.gone then Stack(s.rows, u) == []
    else |Stack(s.rows, u)| + |Between(s, u)| + s.failed[u] == s.logins[u]
  }

  lemma BalancedStep(s: State, l: Label, u: int)
    requires Enabled(s, l) && Balanced(s, u)
    ensures Balanced(Next(s, l), u)
  {
    StackStep(s, l, u);
    BetweenStep(s, l, u);
    CountersStep(s, l, u);
  }

  /** What a step adds to the counts of stored logins and of failed refreshes. */
  lemma CountersStep(s: State, l: Label, u: int)
    requires Enabled(s, l)
    ensures
      var t := Next(s, l);
      var mine := (l.Revoke? || l.Save? || l.Crash?) && s.calls[l.p].next.userId == u;
      var stores := l.Save? && l.o.Applied() && u !in s.gone;
      && t.logins[u] == s.logins[u] + (if mine && stores && s.calls[l.p].LoggedIn? then 1 else 0)
      && t.failed[u] == s.failed[u]
         + (if mine && s.calls[l.p].Rotated? && (l.Crash? || (l.Save? && !stores)) then 1 else 0)
         + (if mine && l.Revoke? && l.o.ReplyLost? && Newest(s.rows, u).Some? then 1 else 0)
  {
  }

  /** Only a revoke adds to the refreshes between their statements, and only its own. */
  lemma BetweenStep(s: State, l: Label, u: int)
    requires Enabled(s, l)
    ensures
      var a, b := Between(s, u), Between(Next(s, l), u);
      if l.DeleteUser? then b == a
      else |b| == |a| - (if l.p in a then 1 else 0) + (if l.p in b then 1 else 0)
  {
    var t := Next(s, l);
    if l.DeleteUser? {
      assert Between(s, u) == Between(t, u);
    } else {
      assert t.calls - {l.p} == s.calls - {l.p};
      assert forall p :: p != l.p ==> (p in s.calls <==> p in s.calls - {l.p}) && (p in t.calls <==> p in t.calls - {l.p});
      SameElsewhere(Between(s, u), Between(t, u), l.p);
    }
  }

  lemma {:induction false} RunBalanced(s: State, ls: seq<Label>, u: int)
    requires Legal(s, ls) && Balanced(s, u)
    ensures Balanced(Run(s, ls), u)
    decreases |ls|
  {
    if ls != [] {
      BalancedStep(s, ls[0], u);
      RunBalanced(Next(s, ls[0]), ls[1..], u);
    }
  }

  /** In every interleaving a user's unrevoked rows are the stored logins less the refreshes
      between their two statements and less those that revoked and failed to store. */
  lemma RowsAreConserved(ls: seq<Label>, u: int)
    requires Legal(INIT, ls)
    ensures
      var s := Run(INIT, ls);
      if u in s.gone then Stack(s.rows, u) == []
      else |Stack(s.rows, u)| == s.logins[u] - |Between(s, u)| - s.failed[u]
  {
    assert Between(INIT, u) == {};
    RunBalanced(INIT, ls, u);
  }

  // ----- when a token can be used again

  predicate Stored(rows: seq<TokenRow>, x: Token) {
    exists i :: 0 <= i < |Stack(rows, x.userId)| && Stack(rows, x.userId)[i].token == x
  }

  /** A call in flight is about to store x. */
  ghost predicate Held(s: State, x: Token) {
    exists p :: p in s.calls && s.calls[p].next == x
  }

  /** No login and no refresh of this run issues x. */
  predicate Unissued(ls: seq<Label>, x: Token) {
    forall i :: 0 <= i < |ls| ==> (ls[i].Login? || ls[i].Check?) ==> ls[i].next != x
  }

  /** What nobody holds nobody stores. */
  lemma StaysUnstored(s: State, l: Label, x: Token)
    requires Enabled(s, l) && !Stored(s.rows, x) && !Held(s, x)
    ensures !Stored(Next(s, l).rows, x)
  {
    var t := Next(s, l);
    StackStep(s, l, x.userId);
    forall i | 0 <= i < |Stack(t.rows, x.userId)|
      ensures Stack(t.rows, x.userId)[i].token != x
    {
      assert i < |Stack(s.rows, x.userId)| ==> Stack(s.rows, x.userId)[i].token != x;
    }
  }

  /** What is not issued nobody holds. */
  lemma StaysUnheld(s: State, ls: seq<Label>, x: Token)
    requires ls != [] && Enabled(s, ls[0]) && Unissued(ls, x) && !Held(s, x)
    ensures !Held(Next(s, ls[0]), x)
  {
    assert ls[0] in ls;
  }

  lemma {:induction false} StaysAway(s: State, ls: seq<Label>, x: Token, now: int, later: int)
    requires Legal(s, ls) && Unissued(ls, x) && !Stored(s.rows, x) && !Held(s, x)
    ensures !Accepts(Run(s, ls).rows, x, now, later)
    decreases |ls|
  {
    if ls == [] {
      var stack := Stack(s.rows, x.userId);
      assert stack != [] ==> Top(stack).token != x;
    } else {
      StaysUnstored(s, ls[0], x);
      StaysUnheld(s, ls, x);
      StaysAway(Next(s, ls[0]), ls[1..], x, now, later);
    }
  }

  /** Some run that never issues x ends in a state that accepts x. */
  ghost predicate CanReturn(s: State, x: Token, now: int) {
    exists ls :: Legal(s, ls) && Unissued(ls, x) && Accepts(Run(s, ls).rows, x, now, now)
  }

  ghost predicate Leads(s: State, ls: seq<Label>, t: State) {
    Legal(s, ls) && Run(s, ls) == t
  }

  lemma {:induction false} Append(s: State, a: seq<Label>, t: State, b: seq<Label>, u: State)
    requires Leads(s, a, t) && Leads(t, b, u)
    ensures Leads(s, a + b, u)
    decreases |a|
  {
    if a == [] {
      assert a + b == b;
    } else {
      assert (a + b)[1..] == a[1..] + b;
      Append(Next(s, a[0]), a[1..], t, b, u);
    }
  }

  lemma ReturnsAfter(s: State, l: Label, x: Token, now: int)
    requires Enabled(s, l) && Unissued([l], x) && CanReturn(Next(s, l), x, now)
    ensures CanReturn(s, x, now)
  {
    var ls :| Legal(Next(s, l), ls) && Unissued(ls, x) && Accepts(Run(Next(s, l), ls).rows, x, now, now);
    assert Unissued([l] + ls, x) by {
      assert [l][0] == l;
    }
    assert ([l] + ls)[1..] == ls;
    assert Legal(s, [l] + ls);
  }

  /** Every row of the user is unexpired, and rows do not expire before their tokens. */
  ghost predicate Valid(rows: seq<TokenRow>, u: int, now: int) {
    forall i :: 0 <= i < |Stack(rows, u)| ==>
      var row := Stack(rows, u)[i];
      now < row.token.expires <= row.expires && row.token.userId == u
  }

  /** A refresh that revokes the newest token and then fails. */
  lemma Discard(s: State, x: Token, now: int) returns (check: Label, revoke: Label)
    requires Stack(s.rows, x.userId) != [] && Valid(s.rows, x.userId, now)
    requires Top(Stack(s.rows, x.userId)).token != x
    ensures Enabled(s, check) && Enabled(Next(s, check), revoke) && Unissued([check], x) && Unissued([revoke], x)
    ensures Stack(Next(Next(s, check), revoke).rows, x.userId) == Pop(Stack(s.rows, x.userId))
  {
    var p := Unused(s.calls.Keys);
    var used := Top(Stack(s.rows, x.userId)).token;
    check := Check(p, used, used.(issued := x.issued + 1), now, now);
    revoke := Revoke(p, now, ReplyLost);
    StackStep(s, check, x.userId);
    StackStep(Next(s, check), revoke, x.userId);
  }

  lemma StoredBelow(rows: seq<TokenRow>, less: seq<TokenRow>, x: Token, now: int)
    requires Stored(rows, x) && Valid(rows, x.userId, now) && Top(Stack(rows, x.userId)).token != x
    requires Stack(less, x.userId) == Pop(Stack(rows, x.userId))
    ensures Stored(less, x) && Valid(less, x.userId, now)
  {
    var i :| 0 <= i < |Stack(rows, x.userId)| && Stack(rows, x.userId)[i].token == x;
    assert Stack(less, x.userId)[i].token == x;
  }

  /** Refreshes whose store fails uncover what lies below. */
  lemma {:induction false} Uncovered(s: State, x: Token, now: int)
    requires Stored(s.rows, x) && Valid(s.rows, x.userId, now)
    ensures CanReturn(s, x, now)
    decreases |Stack(s.rows, x.userId)|
  {
    if Top(Stack(s.rows, x.userId)).token == x {
      assert Legal(s, []) && Run(s, []) == s && Unissued([], x);
    } else {
      var check, revoke := Discard(s, x, now);
      var t := Next(Next(s, check), revoke);
      StoredBelow(s.rows, t.rows, x, now);
      Uncovered(t, x, now);
      ReturnsAfter(Next(s, check), revoke, x, now);
      ReturnsAfter(s, check, x, now);
    }
  }

  /** While nothing has expired, x can be accepted again without being issued again exactly
      if an unrevoked row holds it or a call in flight is about to store it. */
  lemma ReturnsExactly(s: State, x: Token, now: int)
    requires Valid(s.rows, x.userId, now) && now < x.expires && x.userId !in s.gone
    ensures CanReturn(s, x, now) <==> Stored(s.rows, x) || Held(s, x)
  {
    if CanReturn(s, x, now) && !Stored(s.rows, x) && !Held(s, x) {
      var ls :| Legal(s, ls) && Unissued(ls, x) && Accepts(Run(s, ls).rows, x, now, now);
      StaysAway(s, ls, x, now, now);
    }
    if Stored(s.rows, x) {
      Uncovered(s, x, now);
    } else if Held(s, x) {
      var p :| p in s.calls && s.calls[p].next == x;
      HeldReturns(s, p, now);
    }
  }

  /** A call in flight can store its token first thing; one that was accepted needs a row to
      revoke, which a login can supply. */
  lemma HeldReturns(s: State, p: nat, now: int)
    requires p in s.calls && now < s.calls[p].next.expires && s.calls[p].next.userId !in s.gone
    ensures CanReturn(s, s.calls[p].next, now)
    decreases s.calls[p].Accepted?, Stack(s.rows, s.calls[p].next.userId) == []
  {
    var x := s.calls[p].next;
    if s.calls[p].Accepted? && Stack(s.rows, x.userId) == [] {
      var q := Unused(s.calls.Keys);
      var login := Login(q, x.(issued := x.issued + 1));
      var a := Next(s, login);
      var save := Save(q, x.expires, Done);
      StackStep(s, login, x.userId);
      StackStep(a, save, x.userId);
      HeldReturns(Next(a, save), p, now);
      ReturnsAfter(a, save, x, now);
      ReturnsAfter(s, login, x, now);
    } else {
      var l := if s.calls[p].Accepted? then Revoke(p, now, Done) else Save(p, x.expires, Done);
      var t := Next(s, l);
      StackStep(s, l, x.userId);
      if l.Revoke? {
        HeldReturns(t, p, now);
      } else {
        assert Accepts(t.rows, x, now, now);
        assert Legal(t, []) && Run(t, []) == t && Unissued([], x);
      }
      ReturnsAfter(s, l, x, now);
    }
  }

  // ----- rotation is one-time when calls do not overlap and the token is issued once

  predicate Begins(l: Label, u: int) {
    (l.Login? || l.Check?) && l.next.userId == u
  }

  /** How many calls of the run issue x. */
  function Issues(ls: seq<Label>, x: Token): nat {
    if ls == [] then 0
    else (if (ls[0].Login? || ls[0].Check?) && ls[0].next == x then 1 else 0) + Issues(ls[1..], x)
  }

  /** A call of the user begins only when no other of the user's is in flight. */
  ghost predicate Serial(s: State, ls: seq<Label>, u: int)
    decreases |ls|
  {
    ls == [] ||
    (&& Enabled(s, ls[0])
     && (Begins(ls[0], u) ==> forall p :: p in s.calls ==> s.calls[p].next.userId != u)
     && Serial(Next(s, ls[0]), ls[1..], u))
  }

  /** The user's call, if there is one, is the only one and knows the top of the stack. */
  ghost predicate Alone(s: State, u: int) {
    && (forall p, q :: p in s.calls && q in s.calls && s.calls[p].next.userId == u == s.calls[q].next.userId ==> p == q)
    && (forall p :: p in s.calls && s.calls[p].Accepted? ==> s.calls[p].used.userId == s.calls[p].next.userId)
    && (forall p :: p in s.calls && s.calls[p].Accepted? && s.calls[p].next.userId == u && Stack(s.rows, u) != [] ==>
          Top(Stack(s.rows, u)).token == s.calls[p].used)
  }

  lemma AloneStep(s: State, l: Label, u: int)
    requires Alone(s, u) && Serial(s, [l], u)
    ensures Alone(Next(s, l), u)
  {
    StackStep(s, l, u);
    var t := Next(s, l);
    forall p | p in t.calls && t.calls[p].Accepted? && t.calls[p].next.userId == u && Stack(t.rows, u) != []
      ensures Top(Stack(t.rows, u)).token == t.calls[p].used
    {
      if p in s.calls && t.calls[p] == s.calls[p] {
        assert (l.Revoke? || l.Save?) ==> s.calls[l.p].next.userId != u || l.p == p;
      }
    }
  }

  ghost predicate HoldsIt(stack: seq<TokenRow>, x: Token, i: int) {
    0 <= i < |stack| && stack[i].token == x
  }

  /** x was issued once at most: one row or one call has it, never both, and whoever is
      replacing it does so with another token. */
  ghost predicate Single(s: State, x: Token) {
    var stack := Stack(s.rows, x.userId);
    && (forall i, j :: HoldsIt(stack, x, i) && HoldsIt(stack, x, j) ==> i == j)
    && (forall p, q :: p in s.calls && q in s.calls && s.calls[p].next == x == s.calls[q].next ==> p == q)
    && (forall i, p :: HoldsIt(stack, x, i) && p in s.calls ==> s.calls[p].next != x)
    && (forall p, q :: p in s.calls && s.calls[p].Accepted? && s.calls[p].used == x && q in s.calls ==> s.calls[q].next != x)
  }

  ghost predicate Absent(s: State, x: Token) {
    && (forall i :: !HoldsIt(Stack(s.rows, x.userId), x, i))
    && (forall p :: p in s.calls ==> s.calls[p].next != x)
    && (forall p :: p in s.calls && s.calls[p].Accepted? ==> s.calls[p].used != x)
  }

  /** The call q is one of s, or the step began it: a login, or a refresh with an accepted token. */
  ghost predicate CallFrom(s: State, t: State, l: Label, q: nat)
    requires q in t.calls
  {
    || (q in s.calls && t.calls[q].next == s.calls[q].next && (t.calls[q].Accepted? ==> t.calls[q] == s.calls[q]))
    || ((l.Login? || l.Check?) && q == l.p && q !in s.calls && t.calls[q].next == l.next
        && (t.calls[q].Accepted? ==> Stored(s.rows, t.calls[q].used)))
  }

  lemma CallsFrom(s: State, l: Label)
    requires Enabled(s, l)
    ensures forall q :: q in Next(s, l).calls ==> CallFrom(s, Next(s, l), l, q)
  {
    var t := Next(s, l);
    forall q | q in t.calls
      ensures CallFrom(s, t, l, q)
    {
      if l.Check? && q == l.p {
        var stack := Stack(s.rows, l.used.userId);
        assert stack[|stack| - 1].token == l.used;
      }
    }
  }

  /** x at place i of the user's stack was there before, or its only call just stored it. */
  ghost predicate RowFrom(s: State, t: State, l: Label, x: Token, i: int) {
    HoldsIt(Stack(t.rows, x.userId), x, i) ==>
      || HoldsIt(Stack(s.rows, x.userId), x, i)
      || (l.Save? && l.p in s.calls && s.calls[l.p].next == x && l.p !in t.calls && i == |Stack(s.rows, x.userId)|)
  }

  lemma RowsFrom(s: State, l: Label, x: Token)
    requires Enabled(s, l)
    ensures forall i :: RowFrom(s, Next(s, l), l, x, i)
  {
    StackStep(s, l, x.userId);
  }

  lemma NotStored(s: State, x: Token)
    requires forall i :: !HoldsIt(Stack(s.rows, x.userId), x, i)
    ensures !Stored(s.rows, x)
  {
    forall i | 0 <= i < |Stack(s.rows, x.userId)|
      ensures Stack(s.rows, x.userId)[i].token != x
    {
      assert !HoldsIt(Stack(s.rows, x.userId), x, i);
    }
  }

  lemma AbsentCarry(s: State, t: State, l: Label, x: Token)
    requires Absent(s, x) && (forall q :: q in t.calls ==> CallFrom(s, t, l, q)) && forall i :: RowFrom(s, t, l, x, i)
    ensures (l.Login? || l.Check? ==> l.next != x) ==> Absent(t, x)
    ensures Single(t, x)
  {
    forall i
      ensures !HoldsIt(Stack(t.rows, x.userId), x, i)
    {
      assert RowFrom(s, t, l, x, i) && !HoldsIt(Stack(s.rows, x.userId), x, i);
    }
    NotStored(s, x);
  }

  lemma SingleCarry(s: State, t: State, l: Label, x: Token)
    requires Single(s, x) && (forall q :: q in t.calls ==> CallFrom(s, t, l, q)) && forall i :: RowFrom(s, t, l, x, i)
    requires l.Login? || l.Check? ==> l.next != x
    ensures Single(t, x)
  {
    var old_, new_ := Stack(s.rows, x.userId), Stack(t.rows, x.userId);
    forall i, j | HoldsIt(new_, x, i) && HoldsIt(new_, x, j)
      ensures i == j
    {
      assert RowFrom(s, t, l, x, i) && RowFrom(s, t, l, x, j);
    }
    forall i, p | HoldsIt(new_, x, i) && p in t.calls
      ensures t.calls[p].next != x
    {
      assert RowFrom(s, t, l, x, i) && CallFrom(s, t, l, p);
    }
    forall p, q | p in t.calls && t.calls[p].Accepted? && t.calls[p].used == x && q in t.calls
      ensures t.calls[q].next != x
    {
      assert CallFrom(s, t, l, p) && CallFrom(s, t, l, q);
      if p !in s.calls {
        var i :| 0 <= i < |old_| && old_[i].token == x;
        assert HoldsIt(old_, x, i);
      }
    }
  }

  lemma SingleStep(s: State, l: Label, x: Token)
    requires Enabled(s, l)
    ensures Absent(s, x) ==> Single(Next(s, l), x)
    ensures Absent(s, x) && Issues([l], x) == 0 ==> Absent(Next(s, l), x)
    ensures Single(s, x) && Issues([l], x) == 0 ==> Single(Next(s, l), x)
  {
    assert Issues([l], x) == if (l.Login? || l.Check?) && l.next == x then 1 else 0;
    CallsFrom(s, l);
    RowsFrom(s, l, x);
    if Absent(s, x) {
      AbsentCarry(s, Next(s, l), l, x);
    }
    if Single(s, x) && Issues([l], x) == 0 {
      SingleCarry(s, Next(s, l), l, x);
    }
  }

  lemma {:induction false} SingleRun(s: State, ls: seq<Label>, x: Token)
    requires Legal(s, ls) && (if Issues(ls, x) == 0 then Single(s, x) else Issues(ls, x) == 1 && Absent(s, x))
    ensures Single(Run(s, ls), x)
    decreases |ls|
  {
    if ls != [] {
      assert Issues([ls[0]], x) == Issues(ls, x) - Issues(ls[1..], x) by {
        assert [ls[0]][1..] == [];
      }
      SingleStep(s, ls[0], x);
      SingleRun(Next(s, ls[0]), ls[1..], x);
    }
  }

  lemma {:induction false} AloneRun(s: State, ls: seq<Label>, u: int)
    requires Alone(s, u) && Serial(s, ls, u)
    ensures Legal(s, ls) && Alone(Run(s, ls), u)
    decreases |ls|
  {
    if ls != [] {
      assert Serial(s, [ls[0]], u);
      AloneStep(s, ls[0], u);
      AloneRun(Next(s, ls[0]), ls[1..], u);
    }
  }

  /** Once a refresh has revoked the token it was shown, no later run accepts it again: if the
      user's calls did not overlap before, and the token is issued no second time. What comes
      after may overlap as it likes. */
  lemma RotationIsOneTime(ls: seq<Label>, l: Label, more: seq<Label>, x: Token, now: int, later: int)
    requires Serial(INIT, ls, x.userId) && Legal(INIT, ls) && Issues(ls, x) <= 1
    requires l.Revoke? && l.o.Applied() && Enabled(Run(INIT, ls), l) && Run(INIT, ls).calls[l.p].used == x
    requires Legal(Next(Run(INIT, ls), l), more) && Unissued(more, x)
    ensures !Accepts(Run(Next(Run(INIT, ls), l), more).rows, x, now, later)
  {
    var u := x.userId;
    AloneRun(INIT, ls, u);
    assert forall i :: !HoldsIt(Stack(INIT.rows, u), x, i);
    SingleRun(INIT, ls, x);
    var s := Run(INIT, ls);
    RevokedForGood(s, l, x);
    StaysAway(Next(s, l), more, x, now, later);
  }

  lemma RevokedForGood(s: State, l: Label, x: Token)
    requires Alone(s, x.userId) && Single(s, x)
    requires l.Revoke? && l.o.Applied() && Enabled(s, l) && s.calls[l.p].used == x
    ensures !Stored(Next(s, l).rows, x) && !Held(Next(s, l), x)
  {
    var t := Next(s, l);
    var stack := Stack(s.rows, x.userId);
    StackStep(s, l, x.userId);
    forall i | 0 <= i < |Stack(t.rows, x.userId)|
      ensures Stack(t.rows, x.userId)[i].token != x
    {
      assert HoldsIt(stack, x, |stack| - 1);
      assert HoldsIt(stack, x, i) ==> i == |stack| - 1;
    }
  }

  /** A refresh within the second in which its token was issued hands out the same token again,
      and that is accepted again. */
  lemma SameSecondKeepsTheToken(s: State, p: nat, x: Token, now: int) returns (ls: seq<Label>)
    requires p !in s.calls && x.userId !in s.gone && Accepts(s.rows, x, now, now)
    ensures ls == [Check(p, x, x, now, now), Revoke(p, now, Done), Save(p, x.expires, Done)]
    ensures Legal(s, ls) && Run(s, ls).calls == s.calls && Accepts(Run(s, ls).rows, x, now, now)
  {
    var l0, l1, l2 := Check(p, x, x, now, now), Revoke(p, now, Done), Save(p, x.expires, Done);
    var b := TwoSteps(s, l0, l1, x.userId);
    var d := Next(b, l2);
    StackStep(b, l2, x.userId);
    assert [l2][1..] == [] && Legal(d, []) && Run(d, []) == d;
    assert Leads(b, [l2], d);
    Append(s, [l0, l1], b, [l2], d);
    ls := [l0, l1] + [l2];
    assert d.calls == s.calls;
  }

  // ----- overlapping calls break it

  /** Let a login store its token between the check and the revoke of a refresh. The refresh
      then revokes the login's token instead of its own and completes, and the token that was
      used up can return. */
  lemma OverlapKeepsTheUsedToken(s: State, p: nat, y: Token, now: int) returns (ls: seq<Label>, q: nat)
    requires p in s.calls && s.calls[p].Accepted?
    requires var x := s.calls[p].used;
      && x.userId == s.calls[p].next.userId == y.userId && x.userId !in s.gone
      && Stored(s.rows, x) && Valid(s.rows, x.userId, now) && now < s.calls[p].next.expires
      && y != x && s.calls[p].next != x
    ensures q !in s.calls
    ensures var z := s.calls[p].next;
      ls == [Login(q, y), Save(q, y.expires, Done), Revoke(p, now, Done), Save(p, z.expires, Done)]
    ensures Legal(s, ls) && Unissued(ls, s.calls[p].used)
    ensures
      var x, t := s.calls[p].used, Run(s, ls);
      Stack(t.rows, x.userId) == Stack(s.rows, x.userId) + [TokenRow(x.userId, s.calls[p].next, s.calls[p].next.expires, None)]
      && CanReturn(t, x, now)
  {
    var x, z := s.calls[p].used, s.calls[p].next;
    q := Unused(s.calls.Keys);
    var b := LoginStores(s, q, y);
    var d := RefreshReplaces(b, p, now);
    assert Pop(Stack(b.rows, x.userId)) == Stack(s.rows, x.userId);
    Append(s, [Login(q, y), Save(q, y.expires, Done)], b, [Revoke(p, now, Done), Save(p, z.expires, Done)], d);
    ls := [Login(q, y), Save(q, y.expires, Done)] + [Revoke(p, now, Done), Save(p, z.expires, Done)];
    StillThere(s, d, x, z, now);
  }

  lemma LoginStores(s: State, q: nat, y: Token) returns (t: State)
    requires q !in s.calls && y.userId !in s.gone
    ensures Leads(s, [Login(q, y), Save(q, y.expires, Done)], t)
    ensures Stack(t.rows, y.userId) == Stack(s.rows, y.userId) + [TokenRow(y.userId, y, y.expires, None)]
    ensures t.gone == s.gone && forall p :: p in s.calls ==> p in t.calls && t.calls[p] == s.calls[p]
  {
    t := TwoSteps(s, Login(q, y), Save(q, y.expires, Done), y.userId);
  }

  /** The refresh goes on from its revoke: whatever is on top is replaced. */
  lemma RefreshReplaces(s: State, p: nat, now: int) returns (t: State)
    requires p in s.calls && s.calls[p].Accepted? && s.calls[p].next.userId !in s.gone
    requires Stack(s.rows, s.calls[p].next.userId) != []
    ensures var z := s.calls[p].next;
      && Leads(s, [Revoke(p, now, Done), Save(p, z.expires, Done)], t)
      && Stack(t.rows, z.userId) == Pop(Stack(s.rows, z.userId)) + [TokenRow(z.userId, z, z.expires, None)]
  {
    var z := s.calls[p].next;
    t := TwoSteps(s, Revoke(p, now, Done), Save(p, z.expires, Done), z.userId);
  }

  lemma StillThere(s: State, t: State, x: Token, z: Token, now: int)
    requires Stored(s.rows, x) && Valid(s.rows, x.userId, now) && now < z.expires && x.userId == z.userId
    requires Stack(t.rows, x.userId) == Stack(s.rows, x.userId) + [TokenRow(x.userId, z, z.expires, None)]
    ensures CanReturn(t, x, now)
  {
    var i :| 0 <= i < |Stack(s.rows, x.userId)| && Stack(s.rows, x.userId)[i].token == x;
    assert Stack(t.rows, x.userId)[i].token == x;
    Uncovered(t, x, now);
  }

  lemma TwoSteps(s: State, a: Label, b: Label, u: int) returns (t: State)
    requires Enabled(s, a) && Enabled(Next(s, a), b)
    ensures t == Next(Next(s, a), b) && Leads(s, [a, b], t)
    ensures Stack(Next(s, a).rows, u) == StackAfter(s, a, u)
    ensures Stack(t.rows, u) == StackAfter(Next(s, a), b, u)
  {
    t := Next(Next(s, a), b);
    StackStep(s, a, u);
    StackStep(Next(s, a), b, u);
    assert [a, b][1..] == [b] && [b][1..] == [];
    assert Legal(t, []) && Run(t, []) == t;
    assert Legal(Next(s, a), [b]) && Run(Next(s, a), [b]) == t;
  }
}
