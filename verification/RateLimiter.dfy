/**
  The limiter in Redis: two keys per address, written with an expiry by an atomic script.
  Callers of different addresses never meet. Redis drops keys by its own clock, callers bring
  their readings of theirs: under one clock an expiry goes unnoticed when an idle lifetime
  refills the bucket, and under clocks that disagree each expiry costs at most one capacity.
*/
module RateLimiter {
  import opened TokenBucket
  import opened Jobs

  const SECOND := 1_000_000_000

  // ----- the keys

  function TokensKey(ip: string): string {
    "rate_limit:" + ip + ":tokens"
  }

  function LastKey(ip: string): string {
    "rate_limit:" + ip + ":last"
  }

  lemma SameSuffix(a: string, b: string, suffix: string)
    requires a + suffix == b + suffix
    ensures a == b
  {
    assert |a| == |b|;
    assert a == (a + suffix)[..|a|] && b == (b + suffix)[..|b|];
  }

  /** Different addresses use different keys, and no tokens key is a time key. */
  lemma KeysApart(a: string, b: string)
    ensures TokensKey(a) == TokensKey(b) ==> a == b
    ensures LastKey(a) == LastKey(b) ==> a == b
    ensures TokensKey(a) != LastKey(b)
  {
    var prefix := "rate_limit:";
    assert forall x: string, y: string :: (prefix + x + y)[|prefix|..] == x + y;
    if TokensKey(a) == TokensKey(b) {
      assert a + ":tokens" == TokensKey(a)[|prefix|..] == TokensKey(b)[|prefix|..] == b + ":tokens";
      SameSuffix(a, b, ":tokens");
    }
    if LastKey(a) == LastKey(b) {
      assert a + ":last" == LastKey(a)[|prefix|..] == LastKey(b)[|prefix|..] == b + ":last";
      SameSuffix(a, b, ":last");
    }
    assert TokensKey(a)[|TokensKey(a)| - 1] == 's';
    assert LastKey(b)[|LastKey(b)| - 1] == 't';
  }

  // ----- the store

  /** A number and the moment, in nanoseconds, at which Redis drops it. */
  datatype Value = Value(number: real, expires: int)

  predicate LiveAt(store: map<string, Value>, key: string, moment: int) {
    key in store && moment < store[key].expires
  }

  /** What the script finds for this address at this moment. */
  function BucketAt(store: map<string, Value>, ip: string, moment: int): Bucket {
    if LiveAt(store, TokensKey(ip), moment) && LiveAt(store, LastKey(ip), moment)
    then Bucket(store[TokensKey(ip)].number, store[LastKey(ip)].number.Floor)
    else Empty
  }

  /** A bucket whose keys vanish when it has been idle for ttl seconds. */
  function Aged(b: Bucket, ttl: nat, moment: int): Bucket {
    if b.Bucket? && moment >= b.last + ttl * SECOND then Empty else b
  }

  /** The address has this bucket now, until it expires; the others' buckets are untouched. */
  ghost predicate Written(before: map<string, Value>, after: map<string, Value>, ip: string, b: Bucket, expires: int) {
    && (forall moment :: BucketAt(after, ip, moment) == if moment < expires then b else Empty)
    && (forall other, moment :: other != ip ==> BucketAt(after, other, moment) == BucketAt(before, other, moment))
  }

  /** A request of an address: the caller's clock reading, Redis' clock when the script runs,
      and what becomes of the call. */
  datatype Request = Request(ip: string, now: int, moment: int, o: Outcome)

  /** The scripts that ran for one address, in order. */
  function Of(requests: seq<Request>, ip: string): seq<Request> {
    if requests == [] then []
    else
      var r := requests[|requests| - 1];
      Of(requests[..|requests| - 1], ip) + if r.ip == ip && r.o.Applied() then [r] else []
  }

  /** What a script finds at this moment, after these of its address. */
  function Found(p: Params, ttl: nat, own: seq<Request>, moment: int): Bucket
    decreases |own|
  {
    if own == [] then Empty
    else
      var n := |own| - 1;
      if moment < own[n].moment + ttl * SECOND then Next(p, Found(p, ttl, own[..n], own[n].moment), own[n].now) else Empty
  }

  /** The answer to request k, if the address had the store to itself. */
  function AnswerAlone(p: Params, ttl: nat, requests: seq<Request>, k: nat): Option<bool>
    requires k < |requests|
  {
    var r := requests[k];
    if r.o.Ok() then Some(Allows(p, Found(p, ttl, Of(requests[..k], r.ip), r.moment), r.now)) else None
  }

  class RedisRateLimiter {
    const p: Params
    const ttl: nat
    var store: map<string, Value>

    constructor (p: Params, ttl: nat)
      ensures this.p == p && this.ttl == ttl && store == map[]
    {
      this.p, this.ttl := p, ttl;
      store := map[];
    }

    /** The script. `now` is read by the caller before it runs, `moment` is Redis' clock. */
    method AllowRequest(ip: string, now: int, moment: int, o: Outcome) returns (allowed: Option<bool>)
      modifies this
      ensures allowed == if o.Ok() then Some(Allows(p, BucketAt(old(store), ip, moment), now)) else None
      ensures !o.Applied() ==> store == old(store)
      ensures o.Applied() ==> Written(old(store), store, ip, Next(p, BucketAt(old(store), ip, moment), now), moment + ttl * SECOND)
    {
      KeysApart(ip, ip);
      forall other
        ensures other != ip ==> TokensKey(other) != TokensKey(ip) && LastKey(other) != LastKey(ip)
        ensures TokensKey(other) != LastKey(ip) && TokensKey(ip) != LastKey(other)
      {
        KeysApart(ip, other);
        KeysApart(other, ip);
      }
      if !o.Applied() {
        return None;
      }
      var tokens, last := p.capacity, now;
      if LiveAt(store, TokensKey(ip), moment) && LiveAt(store, LastKey(ip), moment) {
        tokens := store[TokensKey(ip)].number;
        last := store[LastKey(ip)].number.Floor;
        tokens := Min(p.capacity, tokens + Gain(p, last, now));
        last := now;
      }
      var granted := false;
      if tokens >= 1.0 {
        tokens := tokens - 1.0;
        granted := true;
      }
      var expires := moment + ttl * SECOND;
      store := store[TokensKey(ip) := Value(tokens, expires)];
      store := store[LastKey(ip) := Value(last as real, expires)];
      allowed := if o.Ok() then Some(granted) else None;
    }

    /** Any interleaving of requests, whatever the clocks say: every address is answered as if it
        were alone. */
    method Serve(requests: seq<Request>) returns (answers: seq<Option<bool>>)
      requires store == map[]
      modifies this
      ensures |answers| == |requests|
      ensures forall k :: 0 <= k < |requests| ==> answers[k] == AnswerAlone(p, ttl, requests, k)
      ensures Holds(p, ttl, store, requests)
    {
      answers := [];
      for k := 0 to |requests|
        invariant |answers| == k
        invariant forall i :: 0 <= i < k ==> answers[i] == AnswerAlone(p, ttl, requests, i)
        invariant Holds(p, ttl, store, requests[..k])
      {
        var r := requests[k];
        ghost var before := store;
        assert BucketAt(before, r.ip, r.moment) == Found(p, ttl, Of(requests[..k], r.ip), r.moment);
        var allowed := AllowRequest(r.ip, r.now, r.moment, r.o);
        answers := answers + [allowed];
        HoldsStep(p, ttl, before, store, requests, k);
      }
      assert requests[..|requests|] == requests;
    }
  }

  /** Every address finds what it would find alone. */
  ghost predicate Holds(p: Params, ttl: nat, store: map<string, Value>, requests: seq<Request>) {
    forall ip, moment :: BucketAt(store, ip, moment) == Found(p, ttl, Of(requests, ip), moment)
  }

  lemma HoldsStep(p: Params, ttl: nat, before: map<string, Value>, after: map<string, Value>, requests: seq<Request>, k: nat)
    requires k < |requests| && Holds(p, ttl, before, requests[..k])
    requires
      var r := requests[k];
      if r.o.Applied()
      then Written(before, after, r.ip, Next(p, BucketAt(before, r.ip, r.moment), r.now), r.moment + ttl * SECOND)
      else after == before
    ensures Holds(p, ttl, after, requests[..k + 1])
  {
    var r, done := requests[k], requests[..k + 1];
    assert done[..k] == requests[..k];
    assert done[|done| - 1] == r;
    forall ip, moment
      ensures BucketAt(after, ip, moment) == Found(p, ttl, Of(done, ip), moment)
    {
      var own := Of(requests[..k], ip);
      assert BucketAt(before, ip, moment) == Found(p, ttl, own, moment);
      if r.ip == ip && r.o.Applied() {
        assert Of(done, ip) == own + [r];
        assert BucketAt(before, ip, r.moment) == Found(p, ttl, own, r.moment);
        assert (own + [r])[..|own|] == own;
      } else {
        assert Of(done, ip) == own;
      }
    }
  }

  lemma NextNonNegative(p: Params, b: Bucket, now: int)
    requires Sensible(p) && (b.Bucket? ==> b.tokens >= 0.0)
    ensures 0.0 <= Next(p, b, now).tokens <= p.capacity
  {
    if b.Bucket? {
      GainNonNegative(p, b.last, now);
    }
  }

  // ----- expiry

  /** An idle lifetime fills the bucket, so finding it gone makes no difference. */
  lemma AgedSame(p: Params, b: Bucket, ttl: nat, now: int)
    requires Sensible(p) && p.capacity <= p.fillRate * ttl as real
    requires b.Bucket? ==> b.tokens >= 0.0
    ensures Available(p, Aged(b, ttl, now), now) == Available(p, b, now)
    ensures Next(p, Aged(b, ttl, now), now) == Next(p, b, now)
  {
    if b.Bucket? && now >= b.last + ttl * SECOND {
      var idle := (now - b.last) as real / NANOS;
      assert idle >= ttl as real;
      assert p.fillRate * idle >= p.fillRate * ttl as real;
      GainNonNegative(p, b.last, now);
    }
  }

  /** From every bucket with a non-negative value, reached by some run or not, expiry goes
      unnoticed exactly when an idle lifetime fills the bucket. */
  lemma UnnoticedFromAnyBucket(p: Params, ttl: nat)
    requires Sensible(p)
    ensures
      (forall b: Bucket, now: int :: (b.Bucket? ==> b.tokens >= 0.0) ==>
         Available(p, Aged(b, ttl, now), now) == Available(p, b, now))
      <==> p.capacity <= p.fillRate * ttl as real
  {
    if p.capacity <= p.fillRate * ttl as real {
      forall b: Bucket, now: int | b.Bucket? ==> b.tokens >= 0.0
        ensures Available(p, Aged(b, ttl, now), now) == Available(p, b, now)
      {
        AgedSame(p, b, ttl, now);
      }
    } else {
      var b, now := Bucket(0.0, 0), ttl * SECOND;
      assert now as real / NANOS == ttl as real;
      assert Available(p, Aged(b, ttl, now), now) == p.capacity;
      assert Gain(p, 0, now) == p.fillRate * ttl as real;
    }
  }

  function Readings(own: seq<Request>): (r: seq<int>)
    ensures |r| == |own|
  {
    seq(|own|, i requires 0 <= i < |own| => own[i].now)
  }

  /** Under one clock the keys might as well never expire. */
  lemma {:induction false} OneClockFinds(p: Params, ttl: nat, own: seq<Request>, moment: int)
    requires Sensible(p) && p.capacity <= p.fillRate * ttl as real
    requires forall r :: r in own ==> r.now == r.moment
    ensures var b := After(p, Empty, Readings(own));
      Found(p, ttl, own, moment) == Aged(b, ttl, moment) && (b.Bucket? ==> b.tokens >= 0.0)
    decreases |own|
  {
    if own != [] {
      var n := |own| - 1;
      OneClockFinds(p, ttl, own[..n], own[n].moment);
      assert Readings(own)[..n] == Readings(own[..n]);
      AgedSame(p, After(p, Empty, Readings(own[..n])), ttl, own[n].now);
      NextNonNegative(p, After(p, Empty, Readings(own[..n])), own[n].now);
    }
  }

  /** So with one clock, and an idle lifetime that fills the bucket, every request is answered as
      by its address's own bucket, kept for ever. */
  lemma OneClockAnswers(p: Params, ttl: nat, requests: seq<Request>, k: nat)
    requires Sensible(p) && p.capacity <= p.fillRate * ttl as real
    requires k < |requests| && forall r :: r in requests ==> r.now == r.moment
    ensures requests[k].o.Ok() ==>
      AnswerAlone(p, ttl, requests, k)
      == Some(Allows(p, After(p, Empty, Readings(Of(requests[..k], requests[k].ip))), requests[k].now))
  {
    var own := Of(requests[..k], requests[k].ip);
    OfMembers(requests[..k], requests[k].ip);
    OneClockFinds(p, ttl, own, requests[k].moment);
    AgedSame(p, After(p, Empty, Readings(own)), ttl, requests[k].now);
  }

  lemma {:induction false} OfMembers(requests: seq<Request>, ip: string)
    ensures forall r :: r in Of(requests, ip) ==> r in requests
  {
    if requests != [] {
      OfMembers(requests[..|requests| - 1], ip);
    }
  }

  // ----- clocks that disagree

  /** The keys expired between scripts k - 1 and k. */
  predicate Lapsed(ttl: nat, own: seq<Request>, k: nat)
    requires 1 <= k < |own|
  {
    own[k].moment >= own[k - 1].moment + ttl * SECOND
  }

  /** How often they expired before the first n scripts were done. */
  function Lapses(ttl: nat, own: seq<Request>, n: nat): nat
    requires n <= |own|
  {
    if n <= 1 then 0 else Lapses(ttl, own, n - 1) + if Lapsed(ttl, own, n - 1) then 1 else 0
  }

  /** What flowed in by the callers' clocks, counting steps forward in time without an expiry. */
  function Inflow(p: Params, ttl: nat, own: seq<Request>, n: nat): real
    requires n <= |own|
  {
    if n <= 1 then 0.0
    else Inflow(p, ttl, own, n - 1) + if Lapsed(ttl, own, n - 1) then 0.0 else Gain(p, own[n - 2].now, own[n - 1].now)
  }

  predicate Passes(p: Params, ttl: nat, own: seq<Request>, k: nat)
    requires k < |own|
  {
    Allows(p, Found(p, ttl, own[..k], own[k].moment), own[k].now)
  }

  /** How many of the first n scripts grant a token. */
  function Passed(p: Params, ttl: nat, own: seq<Request>, n: nat): nat
    requires n <= |own|
  {
    if n == 0 then 0 else Passed(p, ttl, own, n - 1) + if Passes(p, ttl, own, n - 1) then 1 else 0
  }

  /** What script n - 1 stores. */
  function Stored(p: Params, ttl: nat, own: seq<Request>, n: nat): Bucket
    requires 1 <= n <= |own|
  {
    Next(p, Found(p, ttl, own[..n - 1], own[n - 1].moment), own[n - 1].now)
  }

  lemma FoundIsStored(p: Params, ttl: nat, own: seq<Request>, k: nat)
    requires 1 <= k < |own|
    ensures Found(p, ttl, own[..k], own[k].moment) == if Lapsed(ttl, own, k) then Empty else Stored(p, ttl, own, k)
  {
    assert own[..k][..k - 1] == own[..k - 1];
  }

  /** Tokens never leave [0, capacity], in whatever order the scripts run and the keys expire. */
  lemma {:induction false} TokensInRange(p: Params, ttl: nat, own: seq<Request>, n: nat)
    requires Sensible(p) && 1 <= n <= |own|
    ensures Stored(p, ttl, own, n).Bucket? && 0.0 <= Stored(p, ttl, own, n).tokens <= p.capacity
  {
    if n > 1 {
      TokensInRange(p, ttl, own, n - 1);
      FoundIsStored(p, ttl, own, n - 1);
    }
    NextNonNegative(p, Found(p, ttl, own[..n - 1], own[n - 1].moment), own[n - 1].now);
  }

  /** A grant takes one token of what is available. */
  lemma Spent(p: Params, b: Bucket, now: int)
    ensures (if Allows(p, b, now) then 1.0 else 0.0) + Next(p, b, now).tokens == Available(p, b, now)
    ensures Available(p, b, now) <= match b case Empty => p.capacity case Bucket(tokens, last) => tokens + Gain(p, last, now)
  {
  }

  lemma MoreLapses(capacity: real, lapses: nat, more: nat)
    ensures capacity * (1 + lapses + more) as real == capacity * (1 + lapses) as real + capacity * more as real
  {
    assert (1 + lapses + more) as real == (1 + lapses) as real + more as real;
  }

  /** What flows in: a full bucket at first and after every expiry, gains otherwise. */
  function Allowance(p: Params, ttl: nat, own: seq<Request>, n: nat): real
    requires n <= |own|
  {
    if n <= 1 then p.capacity
    else
      var more := if Lapsed(ttl, own, n - 1) then p.capacity else Gain(p, own[n - 2].now, own[n - 1].now);
      Allowance(p, ttl, own, n - 1) + more
  }

  /** One capacity, one more for every expiry, and the inflow in between. */
  lemma {:induction false} AllowanceParts(p: Params, ttl: nat, own: seq<Request>, n: nat)
    requires n <= |own|
    ensures Allowance(p, ttl, own, n) == p.capacity * (1 + Lapses(ttl, own, n)) as real + Inflow(p, ttl, own, n)
  {
    if n > 1 {
      AllowanceParts(p, ttl, own, n - 1);
      MoreLapses(p.capacity, Lapses(ttl, own, n - 1), if Lapsed(ttl, own, n - 1) then 1 else 0);
    }
  }

  /** Grants and what is left never exceed what flowed in. */
  lemma {:induction false} GrantsBounded(p: Params, ttl: nat, own: seq<Request>, n: nat)
    requires Sensible(p) && 1 <= n <= |own|
    ensures Passed(p, ttl, own, n) as real + Stored(p, ttl, own, n).tokens <= Allowance(p, ttl, own, n)
  {
    Spent(p, Found(p, ttl, own[..n - 1], own[n - 1].moment), own[n - 1].now);
    if n > 1 {
      GrantsBounded(p, ttl, own, n - 1);
      FoundIsStored(p, ttl, own, n - 1);
      TokensInRange(p, ttl, own, n - 1);
    }
  }

  /** How many requests of the address are answered with a grant. */
  function Answered(p: Params, ttl: nat, requests: seq<Request>, ip: string): nat {
    if requests == [] then 0
    else
      var n := |requests| - 1;
      var yes := requests[n].ip == ip && AnswerAlone(p, ttl, requests, n) == Some(true);
      Answered(p, ttl, requests[..n], ip) + if yes then 1 else 0
  }

  lemma {:induction false} PassedFront(p: Params, ttl: nat, own: seq<Request>, r: Request, n: nat)
    requires n <= |own|
    ensures Passed(p, ttl, own + [r], n) == Passed(p, ttl, own, n)
  {
    if n > 0 {
      PassedFront(p, ttl, own, r, n - 1);
      assert (own + [r])[..n - 1] == own[..n - 1];
    }
  }

  /** A grant that is answered was made by a script. */
  lemma {:induction false} AnsweredPassed(p: Params, ttl: nat, requests: seq<Request>, ip: string)
    ensures Answered(p, ttl, requests, ip) <= Passed(p, ttl, Of(requests, ip), |Of(requests, ip)|)
  {
    if requests != [] {
      var n := |requests| - 1;
      var r, own := requests[n], Of(requests[..n], ip);
      AnsweredPassed(p, ttl, requests[..n], ip);
      if r.ip == ip && r.o.Applied() {
        assert Of(requests, ip) == own + [r];
        PassedFront(p, ttl, own, r, |own|);
        assert (own + [r])[..|own|] == own;
      } else {
        assert Of(requests, ip) == own;
      }
    }
  }

  lemma PassedWithin(p: Params, ttl: nat, own: seq<Request>)
    requires Sensible(p)
    ensures Passed(p, ttl, own, |own|) as real <= Allowance(p, ttl, own, |own|)
  {
    if own != [] {
      GrantsBounded(p, ttl, own, |own|);
      TokensInRange(p, ttl, own, |own|);
    }
  }

  /** So much an address gets, whoever else asks and whatever the clocks say. */
  lemma AddressBounded(p: Params, ttl: nat, requests: seq<Request>, ip: string)
    requires Sensible(p)
    ensures Answered(p, ttl, requests, ip) as real <= Allowance(p, ttl, Of(requests, ip), |Of(requests, ip)|)
  {
    AnsweredPassed(p, ttl, requests, ip);
    PassedWithin(p, ttl, Of(requests, ip));
  }

  /** As long as the gaps between its scripts stay below the lifetime, an address has the bucket
      of its own readings, kept for ever. */
  lemma {:induction false} NeverLapsed(p: Params, ttl: nat, own: seq<Request>, n: nat)
    requires 1 <= n <= |own| && Lapses(ttl, own, n) == 0
    ensures Stored(p, ttl, own, n) == Before(p, Empty, Readings(own), n)
    ensures Passed(p, ttl, own, n) == Grants(p, Empty, Readings(own), 0, n)
  {
    BeforeNext(p, Empty, Readings(own), n - 1);
    if n > 1 {
      NeverLapsed(p, ttl, own, n - 1);
      FoundIsStored(p, ttl, own, n - 1);
    } else {
      assert own[..0] == [] && Readings(own)[..0] == [];
    }
  }

  /** If moreover the readings are ordered, the inflow is the time between first and last. */
  lemma {:induction false} OrderedInflow(p: Params, ttl: nat, own: seq<Request>, n: nat)
    requires 1 <= n <= |own| && Lapses(ttl, own, n) == 0 && Ordered(Readings(own))
    ensures Inflow(p, ttl, own, n) == Gain(p, own[0].now, own[n - 1].now)
  {
    var times := Readings(own);
    if n > 1 {
      OrderedInflow(p, ttl, own, n - 1);
      assert times[0] <= times[n - 2] <= times[n - 1];
      GainSum(p, own[0].now, own[n - 2].now, own[n - 1].now);
    }
  }

  lemma UnlapsedAllowance(p: Params, ttl: nat, own: seq<Request>)
    requires Lapses(ttl, own, |own|) == 0
    ensures Allowance(p, ttl, own, |own|) == p.capacity + Inflow(p, ttl, own, |own|)
  {
    AllowanceParts(p, ttl, own, |own|);
  }

  /** The bound without expiries, for readings in any order and for ordered ones. */
  lemma UnlapsedBound(p: Params, ttl: nat, own: seq<Request>)
    requires Sensible(p) && own != [] && Lapses(ttl, own, |own|) == 0
    ensures Passed(p, ttl, own, |own|) as real <= p.capacity + Inflow(p, ttl, own, |own|)
    ensures Ordered(Readings(own)) ==>
      Passed(p, ttl, own, |own|) as real <= p.capacity + Gain(p, own[0].now, own[|own| - 1].now)
  {
    PassedWithin(p, ttl, own);
    UnlapsedAllowance(p, ttl, own);
    if Ordered(Readings(own)) {
      OrderedInflow(p, ttl, own, |own|);
    }
  }

  /** An expiry that the caller's clock does not show does cost a capacity: two requests of one
      reading, a lifetime apart by Redis' clock, are both granted. */
  lemma LapseCosts()
    ensures
      var p, own := Params(1.0, 1.0), [Request("x", 0, 0, Done), Request("x", 0, SECOND, Done)];
      Passed(p, 1, own, 2) == 2 && Lapses(1, own, 2) == 1 && Inflow(p, 1, own, 2) == 0.0
  {
    var p, own := Params(1.0, 1.0), [Request("x", 0, 0, Done), Request("x", 0, SECOND, Done)];
    assert own[..0] == [] && own[..1] == [own[0]];
    assert Passes(p, 1, own, 0) && Lapsed(1, own, 1);
    FoundIsStored(p, 1, own, 1);
    assert Passes(p, 1, own, 1);
    assert Passed(p, 1, own, 1) == 1;
  }
}
