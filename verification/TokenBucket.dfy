/**
  The token bucket over real numbers: what the two stored numbers mean in terms of the whole
  request history, that no rule with the same window bounds grants more, and what remains
  true when clocks are out of order or keys expire.
*/
module TokenBucket {

  datatype Params = Params(capacity: real, fillRate: real)

  ghost predicate Sensible(p: Params) {
    p.capacity >= 0.0 && p.fillRate >= 0.0
  }

  /** The two keys of one caller, or none (never set, or expired). */
  datatype Bucket = Empty | Bucket(tokens: real, last: int)

  const NANOS := 1_000_000_000.0

  /** Tokens that flow in between two clock readings in nanoseconds; none when time ran
      backwards. */
  function Gain(p: Params, from: int, to: int): real {
    if to > from then p.fillRate * ((to - from) as real / NANOS) else 0.0
  }

  function Min(a: real, b: real): real {
    if a <= b then a else b
  }

  /** The token value the script compares with 1. */
  function Available(p: Params, b: Bucket, now: int): real {
    match b
    case Empty => p.capacity
    case Bucket(tokens, last) => Min(p.capacity, tokens + Gain(p, last, now))
  }

  predicate Allows(p: Params, b: Bucket, now: int) {
    Available(p, b, now) >= 1.0
  }

  /** What the script stores. */
  function Next(p: Params, b: Bucket, now: int): Bucket {
    Bucket(Available(p, b, now) - (if Allows(p, b, now) then 1.0 else 0.0), now)
  }

  lemma GainNonNegative(p: Params, from: int, to: int)
    requires Sensible(p)
    ensures Gain(p, from, to) >= 0.0
  {
  }

  /** Over ordered times gains add up. */
  lemma GainSum(p: Params, a: int, b: int, c: int)
    requires a <= b <= c
    ensures Gain(p, a, c) == Gain(p, a, b) + Gain(p, b, c)
  {
    var x, y := (b - a) as real / NANOS, (c - b) as real / NANOS;
    assert (c - a) as real == (b - a) as real + (c - b) as real;
    assert (c - a) as real / NANOS == x + y;
    assert p.fillRate * (x + y) == p.fillRate * x + p.fillRate * y;
  }

  // ----- a sequence of requests

  /** The bucket after these requests. */
  function After(p: Params, b: Bucket, times: seq<int>): Bucket {
    if times == [] then b
    else Next(p, After(p, b, times[..|times| - 1]), times[|times| - 1])
  }

  /** Request j of the sequence finds this bucket. */
  function Before(p: Params, b: Bucket, times: seq<int>, j: nat): Bucket
    requires j <= |times|
  {
    After(p, b, times[..j])
  }

  predicate Granted(p: Params, b: Bucket, times: seq<int>, j: nat)
    requires j < |times|
  {
    Allows(p, Before(p, b, times, j), times[j])
  }

  /** Grants among requests i, ..., j-1. */
  function Grants(p: Params, b: Bucket, times: seq<int>, i: nat, j: nat): nat
    requires i <= j <= |times|
  {
    if i == j then 0 else Grants(p, b, times, i, j - 1) + if Granted(p, b, times, j - 1) then 1 else 0
  }

  lemma BeforeNext(p: Params, b: Bucket, times: seq<int>, j: nat)
    requires j < |times|
    ensures Before(p, b, times, j + 1) == Next(p, Before(p, b, times, j), times[j])
  {
    assert times[..j + 1][..j] == times[..j];
  }

  lemma {:induction false} GrantsSplit(p: Params, b: Bucket, times: seq<int>, i: nat, j: nat, k: nat)
    requires i <= j <= k <= |times|
    ensures Grants(p, b, times, i, k) == Grants(p, b, times, i, j) + Grants(p, b, times, j, k)
  {
    if j < k {
      GrantsSplit(p, b, times, i, j, k - 1);
    }
  }

  ghost predicate Ordered(times: seq<int>) {
    forall i, j :: 0 <= i <= j < |times| ==> times[i] <= times[j]
  }

  // ----- the two numbers stand for the whole history

  /** What request j may still have if window i..j is not to exceed its allowance. */
  function Room(p: Params, times: seq<int>, i: nat, j: nat): real
    requires i <= j < |times|
  {
    p.capacity + Gain(p, times[i], times[j]) - Grants(p, Empty, times, i, j) as real
  }

  /** v is the least room over all windows that end at j. */
  ghost predicate IsLeastRoom(p: Params, times: seq<int>, j: nat, v: real)
    requires j < |times|
  {
    && (forall i: nat :: i <= j ==> v <= Room(p, times, i, j))
    && (exists i: nat :: i <= j && v == Room(p, times, i, j))
  }

  lemma RoomStep(p: Params, times: seq<int>, i: nat, j: nat)
    requires Ordered(times) && i <= j && j + 1 < |times|
    ensures Room(p, times, i, j + 1) ==
      Room(p, times, i, j) - (if Granted(p, Empty, times, j) then 1.0 else 0.0) + Gain(p, times[j], times[j + 1])
  {
    GainSum(p, times[i], times[j], times[j + 1]);
  }

  /** Refinement: the token value at request j is the least room of all windows ending there,
      so j is granted exactly when every window has room for one more. */
  lemma {:induction false} TokensAreLeastRoom(p: Params, times: seq<int>, j: nat)
    requires Sensible(p) && Ordered(times) && j < |times|
    ensures IsLeastRoom(p, times, j, Available(p, Before(p, Empty, times, j), times[j]))
  {
    assert Room(p, times, j, j) == p.capacity;
    if j > 0 {
      var u := Available(p, Before(p, Empty, times, j - 1), times[j - 1]);
      var v := Available(p, Before(p, Empty, times, j), times[j]);
      TokensAreLeastRoom(p, times, j - 1);
      BeforeNext(p, Empty, times, j - 1);
      var spent := if Granted(p, Empty, times, j - 1) then 1.0 else 0.0;
      var carried := u - spent + Gain(p, times[j - 1], times[j]);
      assert v == Min(p.capacity, carried);
      forall i: nat | i <= j
        ensures v <= Room(p, times, i, j)
      {
        if i < j {
          RoomStep(p, times, i, j - 1);
        }
      }
      var k: nat :| k <= j - 1 && u == Room(p, times, k, j - 1);
      RoomStep(p, times, k, j - 1);
      assert v == Room(p, times, k, j) || v == Room(p, times, j, j);
    }
  }

  /** A denied request would have broken some window. */
  lemma DeniedOnlyIfFull(p: Params, times: seq<int>, j: nat) returns (i: nat)
    requires Sensible(p) && Ordered(times) && j < |times| && !Granted(p, Empty, times, j)
    ensures i <= j && Grants(p, Empty, times, i, j) as real + 1.0 > p.capacity + Gain(p, times[i], times[j])
  {
    TokensAreLeastRoom(p, times, j);
    i :| i <= j && Available(p, Before(p, Empty, times, j), times[j]) == Room(p, times, i, j);
  }

  /** And what is granted keeps every window within its allowance. */
  lemma WindowsKept(p: Params, times: seq<int>, i: nat, j: nat)
    requires Sensible(p) && Ordered(times) && i <= j < |times| && Granted(p, Empty, times, j)
    ensures Grants(p, Empty, times, i, j + 1) as real <= p.capacity + Gain(p, times[i], times[j])
  {
    TokensAreLeastRoom(p, times, j);
    assert Available(p, Before(p, Empty, times, j), times[j]) <= Room(p, times, i, j);
  }

  // ----- no selection with the same window bounds grants more

  function Chosen(sel: seq<bool>, i: nat, j: nat): nat
    requires i <= j <= |sel|
  {
    if i == j then 0 else Chosen(sel, i, j - 1) + if sel[j - 1] then 1 else 0
  }

  lemma {:induction false} ChosenSplit(sel: seq<bool>, i: nat, j: nat)
    requires i <= j <= |sel|
    ensures Chosen(sel, 0, j) == Chosen(sel, 0, i) + Chosen(sel, i, j)
  {
    if i < j {
      ChosenSplit(sel, i, j - 1);
    }
  }

  /** A selection of requests that keeps every window within the bucket's allowance. */
  ghost predicate Admissible(p: Params, times: seq<int>, sel: seq<bool>) {
    && |sel| == |times|
    && forall i: nat, j: nat :: i <= j < |times| ==>
         Chosen(sel, i, j + 1) as real <= p.capacity + Gain(p, times[i], times[j])
  }

  /** Optimality: at every point the bucket has granted at least as many requests. */
  lemma {:induction false} GrantsMost(p: Params, times: seq<int>, sel: seq<bool>, n: nat)
    requires Sensible(p) && Ordered(times) && Admissible(p, times, sel) && n <= |times|
    ensures Chosen(sel, 0, n) <= Grants(p, Empty, times, 0, n)
    decreases n
  {
    if n > 0 {
      GrantsMost(p, times, sel, n - 1);
      if sel[n - 1] && !Granted(p, Empty, times, n - 1) {
        var i := DeniedOnlyIfFull(p, times, n - 1);
        GrantsMost(p, times, sel, i);
        GrantsSplit(p, Empty, times, 0, i, n - 1);
        ChosenSplit(sel, i, n);
        assert Chosen(sel, i, n) as real <= p.capacity + Gain(p, times[i], times[n - 1]);
      }
    }
  }

  /** The bucket's own choice is such a selection, so the bound is tight. */
  lemma OwnChoiceAdmissible(p: Params, times: seq<int>) returns (sel: seq<bool>)
    requires Sensible(p) && Ordered(times)
    ensures Admissible(p, times, sel)
    ensures forall j :: 0 <= j < |times| ==> sel[j] == Granted(p, Empty, times, j)
  {
    sel := seq(|times|, j requires 0 <= j < |times| => Granted(p, Empty, times, j));
    forall i: nat, j: nat | i <= j < |times|
      ensures Chosen(sel, i, j + 1) as real <= p.capacity + Gain(p, times[i], times[j])
    {
      ChosenIsGrants(p, times, sel, i, j + 1);
      AnyWindowKept(p, times, i, j);
    }
  }

  lemma {:induction false} ChosenIsGrants(p: Params, times: seq<int>, sel: seq<bool>, i: nat, j: nat)
    requires |sel| == |times| && i <= j <= |times|
    requires forall k :: 0 <= k < |times| ==> sel[k] == Granted(p, Empty, times, k)
    ensures Chosen(sel, i, j) == Grants(p, Empty, times, i, j)
  {
    if i < j {
      ChosenIsGrants(p, times, sel, i, j - 1);
    }
  }

  lemma {:induction false} AnyWindowKept(p: Params, times: seq<int>, i: nat, j: nat)
    requires Sensible(p) && Ordered(times) && i <= j < |times|
    ensures Grants(p, Empty, times, i, j + 1) as real <= p.capacity + Gain(p, times[i], times[j])
    decreases j
  {
    GainNonNegative(p, times[i], times[j]);
    if Granted(p, Empty, times, j) {
      WindowsKept(p, times, i, j);
    } else if i < j {
      AnyWindowKept(p, times, i, j - 1);
      GainSum(p, times[i], times[j - 1], times[j]);
      GainNonNegative(p, times[j - 1], times[j]);
    }
  }
}
