/** `Array.prototype.find` and `Array.prototype.filter` over sequences, with the facts their users rely on. */
module Seqs {
  import opened Wrappers

  /** `Array.prototype.find`: the first element satisfying `f`, if any. */
  function Find<T(!new)>(f: T -> bool, s: seq<T>): (r: Option<T>)
    ensures r.Some? ==> exists i :: 0 <= i < |s| && s[i] == r.value && f(s[i])
                                    && forall j :: 0 <= j < i ==> !f(s[j])
    ensures r.None? <==> forall i :: 0 <= i < |s| ==> !f(s[i])
  {
    if s == [] then None
    else if f(s[0]) then Some(s[0])
    else
      var r := Find(f, s[1..]);
      assert r.Some? ==> exists i :: 1 <= i < |s| && s[i] == r.value && f(s[i])
                                     && forall j :: 0 <= j < i ==> !f(s[j]) by {
        if r.Some? {
          var i :| 0 <= i < |s| - 1 && s[1..][i] == r.value && f(s[1..][i])
                   && forall j :: 0 <= j < i ==> !f(s[1..][j]);
          assert s[i + 1] == r.value;
          assert forall j :: 1 <= j < i + 1 ==> s[j] == s[1..][j - 1];
        }
      }
      r
  }

  /** The elements of `s` satisfying `f`, in their original order. */
  function Filter<T(!new)>(f: T -> bool, s: seq<T>): (r: seq<T>)
    ensures |r| <= |s|
    ensures forall x :: x in r <==> x in s && f(x)
    ensures |r| == |s| <==> forall i :: 0 <= i < |s| ==> f(s[i])
  {
    if s == [] then []
    else (if f(s[0]) then [s[0]] else []) + Filter(f, s[1..])
  }

  /** Filtering distributes over concatenation: kept elements stay in their relative order. */
  lemma {:induction false} FilterAppend<T(!new)>(f: T -> bool, a: seq<T>, b: seq<T>)
    ensures Filter(f, a + b) == Filter(f, a) + Filter(f, b)
  {
    if a == [] {
      assert a + b == b;
    } else {
      assert (a + b)[1..] == a[1..] + b;
      FilterAppend(f, a[1..], b);
    }
  }

  /** When every element passes, filtering changes nothing. */
  lemma {:induction false} FilterAll<T(!new)>(f: T -> bool, s: seq<T>)
    requires forall i :: 0 <= i < |s| ==> f(s[i])
    ensures Filter(f, s) == s
  {
    if s != [] {
      FilterAll(f, s[1..]);
    }
  }

  /** Filtering twice by the same test is filtering once. */
  lemma FilterIdempotent<T(!new)>(f: T -> bool, s: seq<T>)
    ensures Filter(f, Filter(f, s)) == Filter(f, s)
  {
    var r := Filter(f, s);
    forall i | 0 <= i < |r| ensures f(r[i]) {
      assert r[i] in r;
    }
    FilterAll(f, r);
  }

  /** Along `x`, `rank` stays within `lo..hi` and strictly increases. */
  predicate RankedIn<T>(x: seq<T>, rank: T -> nat, lo: nat, hi: nat) {
    && (forall k :: 0 <= k < |x| ==> lo <= rank(x[k]) < hi)
    && (forall i, j :: 0 <= i < j < |x| ==> rank(x[i]) < rank(x[j]))
  }

  /** Joining a ranked run below `mid` to a ranked run from `mid` on gives a ranked run. */
  lemma RankedConcat<T>(x: seq<T>, y: seq<T>, rank: T -> nat, lo: nat, mid: nat, hi: nat)
    requires lo <= mid <= hi && RankedIn(x, rank, lo, mid) && RankedIn(y, rank, mid, hi)
    ensures RankedIn(x + y, rank, lo, hi)
  {
    var z := x + y;
    forall k | 0 <= k < |z|
      ensures lo <= rank(z[k]) < hi
    {
      if k < |x| { assert z[k] == x[k]; } else { assert z[k] == y[k - |x|]; }
    }
    forall i, j | 0 <= i < j < |z|
      ensures rank(z[i]) < rank(z[j])
    {
      if j < |x| {
        assert z[i] == x[i] && z[j] == x[j];
      } else if i < |x| {
        assert z[i] == x[i] && z[j] == y[j - |x|];
        assert rank(x[i]) < mid <= rank(y[j - |x|]);
      } else {
        assert z[i] == y[i - |x|] && z[j] == y[j - |x|];
      }
    }
  }
}
