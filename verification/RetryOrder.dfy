/**
  How a sorted set answers ZRANGEBYSCORE: by score, and members of equal score by their
  bytes. Members are encoded jobs.
*/
module RetryOrder {
  import opened Jobs
  import opened Sets
  import Stage

  /** The JSON encoding: a library pair assumed to round-trip. */
  datatype Codec = Codec(encode: Job -> string, decode: string -> Option<Job>)

  ghost predicate RoundTrips(k: Codec) {
    forall job :: k.decode(k.encode(job)) == Some(job)
  }

  /** Only encoded jobs are members. */
  ghost predicate Encoded(k: Codec, z: map<string, int>) {
    forall m :: m in z ==> exists job :: m == k.encode(job)
  }

  lemma DecodeMember(k: Codec, z: map<string, int>, m: string)
    requires RoundTrips(k) && Encoded(k, z) && m in z
    ensures k.decode(m).Some? && k.encode(k.decode(m).value) == m
  {
    var job :| m == k.encode(job);
  }

  /** The retry set seen as jobs. */
  ghost function Decoded(k: Codec, z: map<string, int>): (r: map<Job, int>)
    requires RoundTrips(k) && Encoded(k, z)
    ensures forall job :: job in r <==> k.encode(job) in z
    ensures forall job :: job in r ==> r[job] == z[k.encode(job)]
  {
    var jobs := set m | m in z && k.decode(m).Some? :: k.decode(m).value;
    forall job
      ensures job in jobs <==> k.encode(job) in z
    {
      if job in jobs {
        var m :| m in z && k.decode(m).Some? && k.decode(m).value == job;
        DecodeMember(k, z, m);
      } else {
        assert k.decode(k.encode(job)) == Some(job);
      }
    }
    map job | job in jobs :: z[k.encode(job)]
  }

  // ----- the order

  predicate LexLeq(a: string, b: string) {
    a == [] || (b != [] && (a[0] < b[0] || (a[0] == b[0] && LexLeq(a[1..], b[1..]))))
  }

  lemma {:induction false} LexTotal(a: string, b: string)
    ensures LexLeq(a, b) || LexLeq(b, a)
  {
    if a != [] && b != [] {
      LexTotal(a[1..], b[1..]);
    }
  }

  lemma {:induction false} LexTransitive(a: string, b: string, c: string)
    requires LexLeq(a, b) && LexLeq(b, c)
    ensures LexLeq(a, c)
  {
    if a != [] && a[0] == b[0] == c[0] {
      LexTransitive(a[1..], b[1..], c[1..]);
    }
  }

  lemma {:induction false} LexAntisymmetric(a: string, b: string)
    requires LexLeq(a, b) && LexLeq(b, a)
    ensures a == b
  {
    if a != [] {
      LexAntisymmetric(a[1..], b[1..]);
      assert a == [a[0]] + a[1..] && b == [b[0]] + b[1..];
    }
  }

  predicate Before(z: map<string, int>, a: string, b: string)
    requires a in z && b in z
  {
    z[a] < z[b] || (z[a] == z[b] && LexLeq(a, b))
  }

  predicate IsFirst(z: map<string, int>, due: set<string>, m: string)
    requires due <= z.Keys && m in z
  {
    m in due && forall x :: x in due ==> Before(z, m, x)
  }

  lemma {:induction false} FirstExists(z: map<string, int>, due: set<string>)
    requires due != {} && due <= z.Keys
    ensures exists m :: m in due && IsFirst(z, due, m)
  {
    var x :| x in due;
    if due == {x} {
      LexTotal(x, x);
      assert IsFirst(z, due, x);
    } else {
      FirstExists(z, due - {x});
      var m :| m in due - {x} && IsFirst(z, due - {x}, m);
      LexTotal(m, x);
      LexTotal(x, x);
      if Before(z, m, x) {
        assert IsFirst(z, due, m);
      } else {
        forall y | y in due
          ensures Before(z, x, y)
        {
          if y != x {
            assert Before(z, m, y);
            if z[x] == z[m] == z[y] {
              LexTransitive(x, m, y);
            }
          }
        }
        assert IsFirst(z, due, x);
      }
    }
  }

  function DueSet(z: map<string, int>, now: int): set<string> {
    set m | m in z && 0 <= z[m] <= now
  }

  /** ZRANGEBYSCORE 0 now LIMIT count: the first due members in order. */
  ghost predicate IsRange(z: map<string, int>, now: int, count: nat, batch: seq<string>) {
    && |batch| <= count
    && (forall i :: 0 <= i < |batch| ==> batch[i] in DueSet(z, now))
    && (forall i, j :: 0 <= i < j < |batch| ==> batch[i] != batch[j] && Before(z, batch[i], batch[j]))
    && (forall m :: m in DueSet(z, now) && m !in batch ==>
          |batch| == count && forall i :: 0 <= i < |batch| ==> Before(z, batch[i], m))
  }

  /** The answer's size: everything due, up to the limit. */
  lemma RangeSize(z: map<string, int>, now: int, count: nat, batch: seq<string>)
    requires IsRange(z, now, count, batch)
    ensures |batch| == if |DueSet(z, now)| <= count then |DueSet(z, now)| else count
    ensures |DueSet(z, now) - Members(batch)| == |DueSet(z, now)| - |batch|
  {
    MembersSize(batch);
    assert Members(batch) <= DueSet(z, now);
    assert DueSet(z, now) == (DueSet(z, now) - Members(batch)) + Members(batch);
    if |batch| < count {
      assert DueSet(z, now) == Members(batch);
    }
  }

  function Members(batch: seq<string>): set<string> {
    set m | m in batch
  }

  lemma {:induction false} MembersSize(batch: seq<string>)
    requires forall i, j :: 0 <= i < j < |batch| ==> batch[i] != batch[j]
    ensures |Members(batch)| == |batch|
  {
    if batch != [] {
      var n := |batch| - 1;
      MembersSize(batch[..n]);
      assert Members(batch) == Members(batch[..n]) + {batch[n]};
    }
  }

  /** Lower scores go first: of what is due by an earlier time the answer holds as many as fit,
      however much has become due since. */
  lemma EarliestFirst(z: map<string, int>, due: int, now: int, count: nat, batch: seq<string>)
    requires IsRange(z, now, count, batch) && due <= now
    ensures
      var d := |DueSet(z, due)|;
      |DueSet(z, due) - Members(batch)| == if d <= count then 0 else d - count
  {
    var early, got := DueSet(z, due), Members(batch);
    MembersSize(batch);
    if early <= got {
      SubsetSize(early, got);
      assert early - got == {};
    } else {
      var m :| m in early && m !in got;
      assert m in DueSet(z, now) && m !in batch;
      forall x | x in got
        ensures x in early
      {
        var i :| 0 <= i < |batch| && batch[i] == x;
        assert Before(z, batch[i], m) && batch[i] in DueSet(z, now);
      }
      assert early == (early - got) + got;
      assert m in early - got;
    }
  }

  lemma NextBefore(z: map<string, int>, now: int, count: nat, a: seq<string>, b: seq<string>, n: nat)
    requires IsRange(z, now, count, a) && IsRange(z, now, count, b)
    requires n < |a| && n < |b| && a[..n] == b[..n]
    ensures Before(z, a[n], b[n])
  {
    LexTotal(a[n], a[n]);
    assert forall i :: 0 <= i < n ==> a[i] == a[..n][i] && b[i] == b[..n][i];
    assert b[n] in DueSet(z, now);
  }

  lemma NextSame(z: map<string, int>, now: int, count: nat, a: seq<string>, b: seq<string>, n: nat)
    requires IsRange(z, now, count, a) && IsRange(z, now, count, b)
    requires n < |a| && n < |b| && a[..n] == b[..n]
    ensures a[..n + 1] == b[..n + 1]
  {
    NextBefore(z, now, count, a, b, n);
    NextBefore(z, now, count, b, a, n);
    LexAntisymmetric(a[n], b[n]);
  }

  /** There is only one such answer. */
  lemma {:induction false} RangeUnique(z: map<string, int>, now: int, count: nat, a: seq<string>, b: seq<string>, n: nat)
    requires IsRange(z, now, count, a) && IsRange(z, now, count, b) && n <= |a| == |b|
    ensures a[..n] == b[..n]
  {
    if n > 0 {
      RangeUnique(z, now, count, a, b, n - 1);
      NextSame(z, now, count, a, b, n - 1);
    }
  }

  function DecodeAll(k: Codec, batch: seq<string>): (r: seq<Job>)
    requires forall i :: 0 <= i < |batch| ==> k.decode(batch[i]).Some?
    ensures |r| == |batch|
  {
    seq(|batch|, i requires 0 <= i < |batch| => k.decode(batch[i]).value)
  }

  lemma RangeDecodes(k: Codec, z: map<string, int>, now: int, count: nat, batch: seq<string>)
    requires RoundTrips(k) && Encoded(k, z) && IsRange(z, now, count, batch)
    ensures forall i :: 0 <= i < |batch| ==>
      k.decode(batch[i]).Some? && k.encode(k.decode(batch[i]).value) == batch[i] && batch[i] in z
  {
    forall i | 0 <= i < |batch|
      ensures k.decode(batch[i]).Some? && k.encode(k.decode(batch[i]).value) == batch[i] && batch[i] in z
    {
      assert batch[i] in DueSet(z, now);
      DecodeMember(k, z, batch[i]);
    }
  }

  lemma LeftOut(k: Codec, z: map<string, int>, now: int, batch: seq<string>, job: Job)
    requires RoundTrips(k) && Encoded(k, z) && IsRange(z, now, Stage.BATCH, batch)
    requires forall i :: 0 <= i < |batch| ==> k.decode(batch[i]).Some?
    requires Stage.Due(Decoded(k, z), now, job) && job !in DecodeAll(k, batch)
    ensures |batch| == Stage.BATCH && forall i :: 0 <= i < |batch| ==> batch[i] in z && z[batch[i]] <= z[k.encode(job)]
  {
    var m := k.encode(job);
    assert m in DueSet(z, now);
    forall i | 0 <= i < |batch|
      ensures batch[i] != m
    {
      assert DecodeAll(k, batch)[i] != job;
      assert k.decode(m) == Some(job);
    }
  }

  /** The answer decodes, and is then a batch in the sense of the transition system. */
  lemma RangeIsBatch(k: Codec, z: map<string, int>, now: int, batch: seq<string>)
    requires RoundTrips(k) && Encoded(k, z) && IsRange(z, now, Stage.BATCH, batch)
    ensures forall i :: 0 <= i < |batch| ==> k.decode(batch[i]).Some? && k.encode(k.decode(batch[i]).value) == batch[i]
    ensures Stage.IsBatch(Decoded(k, z), now, DecodeAll(k, batch))
  {
    RangeDecodes(k, z, now, Stage.BATCH, batch);
    var jobs := DecodeAll(k, batch);
    forall job | Stage.Due(Decoded(k, z), now, job) && job !in jobs
      ensures |jobs| == Stage.BATCH && forall i :: 0 <= i < |jobs| ==> Decoded(k, z)[jobs[i]] <= Decoded(k, z)[job]
    {
      LeftOut(k, z, now, batch, job);
    }
    forall i | 0 <= i < |jobs|
      ensures Stage.Due(Decoded(k, z), now, jobs[i])
    {
      assert batch[i] in DueSet(z, now);
    }
  }

  lemma NothingDue(z: map<string, int>, now: int, count: nat, batch: seq<string>)
    requires IsRange(z, now, count, batch) && count > 0
    ensures batch == [] <==> DueSet(z, now) == {}
  {
    RangeSize(z, now, count, batch);
  }
}
