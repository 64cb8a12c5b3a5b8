/**
  Login and refresh as they are written, over the table of refresh tokens. Each call is
  proved to push, replace or pop the user's own stack, and a refresh to be a path of the
  interleaving machine.
*/
module Sessions {
  import opened Jobs
  import opened RefreshTokens

  class RefreshTokenRepo {
    var rows: seq<TokenRow>

    constructor ()
      ensures rows == []
    {
      rows := [];
    }

    /** `known` is the foreign key: no row without its user. */
    method StoreRefreshToken(u: int, token: Token, expires: int, known: bool, o: Outcome) returns (ok: bool)
      modifies this
      ensures ok <==> o.Ok() && known
      ensures rows == old(rows) + if o.Applied() && known then [TokenRow(u, token, expires, None)] else []
      ensures forall v ::
        Stack(rows, v) == Stack(old(rows), v)
                          + if o.Applied() && known && u == v then [TokenRow(u, token, expires, None)] else []
    {
      if o.Applied() && known {
        ghost var before := rows;
        rows := rows + [TokenRow(u, token, expires, None)];
        forall v ensures Stack(rows, v) == Stack(before, v) + if u == v then [TokenRow(u, token, expires, None)] else [] {
          Pushed(before, TokenRow(u, token, expires, None), v);
        }
      }
      ok := o.Ok() && known;
    }

    method RetrieveRefreshToken(u: int, o: Outcome) returns (r: Option<TokenRow>)
      ensures r == if o.Ok() && Stack(rows, u) != [] then Some(Top(Stack(rows, u))) else None
    {
      var k := Newest(rows, u);
      r := if o.Ok() && k.Some? then Some(rows[k.value]) else None;
    }

    /** Revokes the newest unrevoked row, whichever token that is by now. */
    method UpdateRefreshToken(u: int, now: int, o: Outcome) returns (ok: bool)
      modifies this
      ensures ok <==> o.Ok() && Stack(old(rows), u) != []
      ensures forall v ::
        Stack(rows, v) ==
        if o.Applied() && u == v && Stack(old(rows), u) != [] then Pop(Stack(old(rows), u)) else Stack(old(rows), v)
      ensures |rows| == |old(rows)|
      ensures forall i :: 0 <= i < |rows| ==> rows[i].(revoked := None) == old(rows)[i].(revoked := None)
    {
      var k := Newest(rows, u);
      if o.Applied() && k.Some? {
        ghost var before := rows;
        rows := rows[k.value := rows[k.value].(revoked := Some(now))];
        forall v ensures Stack(rows, v) == if u == v then Pop(Stack(before, u)) else Stack(before, v) {
          Popped(before, u, now, v);
        }
      }
      ok := o.Ok() && k.Some?;
    }
  }

  /** The stored password hash verifies exactly the password. */
  datatype Account = Account(email: string, password: string)

  /** What the calls inside a refresh answer, and what the clock shows at each. */
  datatype Answers = Answers(user: Outcome, retrieve: Outcome, hashed: bool, update: Outcome, store: Outcome)
  datatype Clock = Clock(verified: int, checked: int, expires: int, issued: int, revoked: int, stored: int)

  datatype Refreshed = Pair(next: Token) | Rejected | Expired | Aborted | Panicked

  function Replacement(x: Token, c: Clock): Token {
    Token(x.userId, x.email, c.expires, c.issued)
  }

  /** An undisturbed refresh on its user's stack: what it leaves and what it answers. When the
      user is not found, the error log itself reads the missing user. */
  function RefreshAlone(known: bool, stack: seq<TokenRow>, x: Token, c: Clock, a: Answers): (seq<TokenRow>, Refreshed) {
    if c.verified >= x.expires then (stack, Rejected)
    else if !known || !a.user.Ok() then (stack, Panicked)
    else if !a.retrieve.Ok() || stack == [] then (stack, Aborted)
    else if Top(stack).token != x then (stack, Rejected)
    else if Top(stack).expires < c.checked then (stack, Expired)
    else if !a.hashed || a.update == Refused then (stack, Aborted)
    else if a.update == ReplyLost || a.store == Refused then (Pop(stack), Aborted)
    else
      (Pop(stack) + [TokenRow(x.userId, Replacement(x, c), c.stored, None)],
       if a.store.Ok() then Pair(Replacement(x, c)) else Aborted)
  }

  class UserService {
    var users: map<int, Account>
    const repo: RefreshTokenRepo

    constructor (users: map<int, Account>, repo: RefreshTokenRepo)
      ensures this.users == users && this.repo == repo
    {
      this.users, this.repo := users, repo;
    }

    /** UNIQUE (email) */
    ghost predicate UniqueEmails()
      reads this
    {
      forall i, j :: i in users && j in users && users[i].email == users[j].email ==> i == j
    }

    /** A token is answered exactly for the right password, and it is the one stored on top
        of that user's stack; no other stack changes. */
    method AuthenticateUser(email: string, password: string, c: Clock, a: Answers) returns (r: Option<Token>)
      requires UniqueEmails()
      modifies repo
      ensures r.Some? <==>
        && a.user.Ok() && a.hashed && a.store.Ok()
        && exists u :: u in users && users[u] == Account(email, password)
      ensures r.Some? ==>
        && r.value.userId in users && users[r.value.userId] == Account(email, password)
        && r.value == Token(r.value.userId, email, c.expires, c.issued)
      ensures forall v ::
        Stack(repo.rows, v) == Stack(old(repo.rows), v) +
          if v in users && users[v] == Account(email, password) && a.user.Ok() && a.hashed && a.store.Applied()
          then [TokenRow(v, Token(v, email, c.expires, c.issued), c.stored, None)] else []
    {
      if !a.user.Ok() {
        return None;
      }
      if u :| u in users && users[u].email == email {
        if users[u].password != password || !a.hashed {
          return None;
        }
        var token := Token(u, email, c.expires, c.issued);
        var ok := repo.StoreRefreshToken(u, token, c.stored, true, a.store);
        r := if ok then Some(token) else None;
      } else {
        r := None;
      }
    }

    /** The check of RevokedAt never fires: what the query returns is not revoked. */
    method RefreshJwtToken(refreshToken: Option<Token>, c: Clock, a: Answers) returns (r: Refreshed)
      modifies repo
      ensures refreshToken.None? ==> r == Rejected && repo.rows == old(repo.rows)
      ensures refreshToken.Some? ==>
        var u := refreshToken.value.userId;
        (Stack(repo.rows, u), r) == RefreshAlone(u in users, Stack(old(repo.rows), u), refreshToken.value, c, a)
      ensures refreshToken.Some? ==>
        forall v :: v != refreshToken.value.userId ==> Stack(repo.rows, v) == Stack(old(repo.rows), v)
      // who gets a new pair, and which: the token that is stored on top in place of the one shown
      ensures refreshToken.Some? ==>
        var x := refreshToken.value; var u, stack := x.userId, Stack(old(repo.rows), x.userId); var n := |stack|;
        && (r.Pair? <==>
              && c.verified < x.expires && u in users && n > 0 && stack[n - 1].token == x && c.checked <= stack[n - 1].expires
              && a.user.Ok() && a.retrieve.Ok() && a.hashed && a.update.Ok() && a.store.Ok())
        && (r.Pair? ==>
              && r.next == Token(u, x.email, c.expires, c.issued)
              && Stack(repo.rows, u) == stack[..n - 1] + [TokenRow(u, r.next, c.stored, None)])
      // every other answer, and what is left behind it
      ensures refreshToken.Some? ==>
        var x := refreshToken.value; var u, stack := x.userId, Stack(old(repo.rows), x.userId); var n := |stack|;
        var found := c.verified < x.expires && u in users && a.user.Ok() && a.retrieve.Ok() && n > 0;
        var accepted := found && stack[n - 1].token == x && c.checked <= stack[n - 1].expires && a.hashed;
        && (r == Panicked <==> c.verified < x.expires && (u !in users || !a.user.Ok()))
        && (r == Rejected <==> c.verified >= x.expires || (found && stack[n - 1].token != x))
        && (r == Expired <==> found && stack[n - 1].token == x && stack[n - 1].expires < c.checked)
        && (!accepted || a.update.Refused? ==> Stack(repo.rows, u) == stack)
        && (accepted && a.update.Applied() && !(a.update.Ok() && a.store.Applied()) ==> Stack(repo.rows, u) == stack[..n - 1])
        && (accepted && a.update.Ok() && a.store.Applied() ==>
              Stack(repo.rows, u) == stack[..n - 1] + [TokenRow(u, Token(u, x.email, c.expires, c.issued), c.stored, None)])
    {
      if refreshToken.None? || c.verified >= refreshToken.value.expires {
        return Rejected;
      }
      var token := refreshToken.value;
      ghost var stack := Stack(repo.rows, token.userId);
      if token.userId !in users || !a.user.Ok() {
        return Panicked;
      }
      var row := repo.RetrieveRefreshToken(token.userId, a.retrieve);
      if row.None? {
        return Aborted;
      }
      if row.value.token != token {
        return Rejected;
      }
      if row.value.expires < c.checked {
        return Expired;
      }
      if row.value.revoked.Some? {
        assert false;
      }
      if !a.hashed {
        return Aborted;
      }
      var ok := repo.UpdateRefreshToken(token.userId, c.revoked, a.update);
      if !ok {
        assert Stack(repo.rows, token.userId) == if a.update.Applied() then Pop(stack) else stack;
        return Aborted;
      }
      assert Stack(repo.rows, token.userId) == Pop(stack);
      var next := Replacement(token, c);
      ok := repo.StoreRefreshToken(token.userId, next, c.stored, true, a.store);
      assert Pop(stack) + [] == Pop(stack);
      r := if ok then Pair(next) else Aborted;
    }
  }

  /** An undisturbed refresh is a path of the machine, so its theorems cover the calls. */
  lemma RefreshIsPath(s: State, p: nat, x: Token, c: Clock, a: Answers) returns (ls: seq<Label>)
    requires p !in s.calls && x.userId !in s.gone
    requires c.verified <= c.checked && c.expires <= c.stored
    ensures Legal(s, ls) && Run(s, ls).calls == s.calls
    ensures Stack(Run(s, ls).rows, x.userId) == RefreshAlone(true, Stack(s.rows, x.userId), x, c, a).0
    ensures RefreshAlone(true, Stack(s.rows, x.userId), x, c, a).1.Pair? ==> |ls| == 3 && a.store.Ok()
    ensures
      var check := Check(p, x, Token(x.userId, x.email, c.expires, c.issued), c.verified, c.checked);
      ls == if !Accepts(s.rows, x, c.verified, c.checked) || !a.user.Ok() || !a.retrieve.Ok() then []
            else if !a.hashed then [check, Crash(p)]
            else if !a.update.Ok() then [check, Revoke(p, c.revoked, a.update)]
            else [check, Revoke(p, c.revoked, Done), Save(p, c.stored, a.store)]
  {
    var u := x.userId;
    var check := Check(p, x, Replacement(x, c), c.verified, c.checked);
    var t := Next(s, check);
    assert t.calls - {p} == s.calls;
    if p !in t.calls || !a.user.Ok() || !a.retrieve.Ok() {
      ls := [];
    } else if !a.hashed || a.update != Done {
      ls := FailedRefresh(s, check, if a.hashed then Revoke(p, c.revoked, a.update) else Crash(p), u);
    } else {
      ls := ThreeSteps(s, check, Revoke(p, c.revoked, Done), Save(p, c.stored, a.store), u);
    }
  }

  /** A refresh that stops at its revoke, or before it. */
  lemma FailedRefresh(s: State, check: Label, l: Label, u: int) returns (ls: seq<Label>)
    requires check.Check? && Enabled(s, check) && Accepts(s.rows, check.used, check.now, check.later)
    requires l == Crash(check.p) || (l.Revoke? && l.p == check.p && !l.o.Ok())
    ensures ls == [check, l] && Legal(s, ls) && Run(s, ls).calls == s.calls
    ensures
      var stack := Stack(s.rows, u);
      Stack(Run(s, ls).rows, u) ==
      if l.Revoke? && check.next.userId == u && stack != [] && l.o.Applied() then Pop(stack) else stack
  {
    var a := Next(s, check);
    assert a == s.(calls := s.calls[check.p := Accepted(check.used, check.next)]);
    assert a.calls - {check.p} == s.calls;
    assert Next(a, l).calls == a.calls - {l.p};
    var t := TwoSteps(s, check, l, u);
    ls := [check, l];
  }

  lemma ThreeSteps(s: State, a: Label, b: Label, l: Label, u: int) returns (ls: seq<Label>)
    requires Enabled(s, a) && Enabled(Next(s, a), b) && Enabled(Next(Next(s, a), b), l)
    ensures ls == [a, b, l] && Leads(s, ls, Next(Next(Next(s, a), b), l))
    ensures Stack(Next(s, a).rows, u) == StackAfter(s, a, u)
    ensures Stack(Next(Next(s, a), b).rows, u) == StackAfter(Next(s, a), b, u)
    ensures Stack(Run(s, ls).rows, u) == StackAfter(Next(Next(s, a), b), l, u)
  {
    var t := TwoSteps(s, a, b, u);
    var end := Next(t, l);
    StackStep(t, l, u);
    assert [l][1..] == [] && Legal(end, []) && Run(end, []) == end;
    assert Leads(t, [l], end);
    Append(s, [a, b], t, [l], end);
    ls := [a, b] + [l];
  }
}
