/** Histograms (sf-metrics/src/inmemory/histogram.rs): bucket bounds, the search for a slot, counts slot by slot.
    A finite f64 is a real; NaN and the infinities are kept where the code tests for them. */
module Histograms {
  import opened Bytes
  import opened Sorting

  datatype F64 = Finite(r: real) | PosInf | NegInf | NaN

  /** An f64 that `partial_cmp` can order. */
  type Bound = x: F64 | x != NaN witness NegInf

  predicate AtMost(a: Bound, b: Bound) {
    a.NegInf? || b.PosInf? || (a.Finite? && b.Finite? && a.r <= b.r)
  }

  const DEFAULT_BUCKETS: seq<Bound> :=
    [Finite(0.005), Finite(0.01), Finite(0.025), Finite(0.05), Finite(0.1), Finite(0.25), Finite(0.5), Finite(1.0),
     Finite(2.5), Finite(5.0), Finite(10.0)]

  // ----- bucket bounds -----

  ghost predicate Increasing(b: seq<real>) {
    forall i, j :: 0 <= i < j < |b| ==> b[i] < b[j]
  }

  ghost predicate IsNormalised(b: seq<real>, bounds: seq<Bound>) {
    Increasing(b) && forall r: real :: r in b <==> Finite(r) in bounds
  }

  /** The finite elements, each kept unless it equals the one kept before it. */
  method RetainFinite(bounds: seq<Bound>) returns (b: seq<real>)
    requires Ordered(AtMost, bounds)
    ensures forall i, j :: 0 <= i < j < |b| ==> b[i] <= b[j]
    ensures forall r :: r in b <==> Finite(r) in bounds
  {
    b := [];
    for i := 0 to |bounds|
      invariant forall r :: r in b <==> Finite(r) in bounds[..i]
      invariant forall k, l :: 0 <= k < l < |b| ==> b[k] <= b[l]
      invariant i < |bounds| && bounds[i].Finite? ==> forall k :: 0 <= k < |b| ==> b[k] <= bounds[i].r
    {
      assert bounds[..i + 1] == bounds[..i] + [bounds[i]];
      if bounds[i].Finite? {
        b := b + [bounds[i].r];
      }
      if i + 1 < |bounds| && bounds[i + 1].Finite? {
        forall k | 0 <= k < |b| ensures b[k] <= bounds[i + 1].r {
          assert b[k] in b;
          var j :| 0 <= j < i + 1 && bounds[..i + 1][j] == Finite(b[k]);
          assert AtMost(bounds[j], bounds[i + 1]);
        }
      }
    }
    assert bounds[..|bounds|] == bounds;
  }

  method Dedup(s: seq<real>) returns (b: seq<real>)
    requires forall i, j :: 0 <= i < j < |s| ==> s[i] <= s[j]
    ensures Increasing(b) && forall r :: r in b <==> r in s
  {
    b := [];
    for i := 0 to |s|
      invariant Increasing(b) && forall r :: r in b <==> r in s[..i]
      invariant i == 0 <==> b == []
      invariant i > 0 ==> b[|b| - 1] == s[i - 1]
    {
      assert s[..i + 1] == s[..i] + [s[i]];
      if b == [] || s[i] != b[|b| - 1] {
        b := b + [s[i]];
      }
    }
    assert s[..|s|] == s;
  }

  /** `HistogramStorage::new`: sorted, finite, without repetitions. */
  method NewBuckets(input: Option<seq<Bound>>) returns (b: seq<real>)
    ensures input.Some? ==> IsNormalised(b, input.value)
    ensures input.None? ==> IsNormalised(b, DEFAULT_BUCKETS)
  {
    var bounds := Given(input);
    AtMostIsTotal();
    SortedIsOrdered(AtMost, bounds);
    var sorted := Sorted(AtMost, bounds);
    var finite := RetainFinite(sorted);
    b := Dedup(finite);
    forall r ensures r in b <==> Finite(r) in bounds {
      assert Finite(r) in bounds <==> Finite(r) in multiset(bounds);
      assert Finite(r) in sorted <==> Finite(r) in multiset(sorted);
    }
  }

  function Given(input: Option<seq<Bound>>): seq<Bound> {
    if input.Some? then input.value else DEFAULT_BUCKETS
  }

  lemma AtMostIsTotal()
    ensures TotalPreorder(AtMost)
  {
  }

  lemma InTail(b: seq<real>, r: real)
    requires Increasing(b) && b != []
    ensures r in b[1..] <==> r in b && r != b[0]
  {
    assert b == [b[0]] + b[1..];
    assert forall i :: 0 <= i < |b[1..]| ==> b[1..][i] == b[i + 1];
  }

  /** The finite elements alone determine the buckets. */
  lemma {:induction false} BucketsAreDetermined(b1: seq<real>, b2: seq<real>)
    requires Increasing(b1) && Increasing(b2) && forall r :: r in b1 <==> r in b2
    ensures b1 == b2
  {
    assert b1 != [] ==> b1[0] in b1;
    assert b2 != [] ==> b2[0] in b2;
    if b1 != [] {
      assert b1[0] == b2[0];
      forall r ensures r in b1[1..] <==> r in b2[1..] {
        InTail(b1, r);
        InTail(b2, r);
      }
      BucketsAreDetermined(b1[1..], b2[1..]);
    }
  }

  /** The default buckets, in order. */
  const DEFAULTS: seq<real> := [0.005, 0.01, 0.025, 0.05, 0.1, 0.25, 0.5, 1.0, 2.5, 5.0, 10.0]

  lemma DefaultMember(r: real)
    ensures Finite(r) in DEFAULT_BUCKETS <==> r in DEFAULTS
  {
    assert |DEFAULTS| == |DEFAULT_BUCKETS|;
    assert forall i :: 0 <= i < |DEFAULTS| ==> DEFAULT_BUCKETS[i] == Finite(DEFAULTS[i]);
  }

  lemma NormalisedIsUnique(b1: seq<real>, b2: seq<real>, bounds: seq<Bound>)
    requires IsNormalised(b1, bounds) && IsNormalised(b2, bounds)
    ensures b1 == b2
  {
    BucketsAreDetermined(b1, b2);
  }

  lemma DefaultsIncrease()
    ensures Increasing(DEFAULTS)
  {
  }

  lemma DefaultsAreNormalised()
    ensures IsNormalised(DEFAULTS, DEFAULT_BUCKETS)
  {
    DefaultsIncrease();
    forall r ensures r in DEFAULTS <==> Finite(r) in DEFAULT_BUCKETS {
      DefaultMember(r);
    }
  }

  /** Without bounds given, the buckets are these eleven. */
  lemma DefaultBuckets(b: seq<real>)
    requires IsNormalised(b, DEFAULT_BUCKETS)
    ensures b == DEFAULTS
  {
    DefaultsAreNormalised();
    NormalisedIsUnique(b, DEFAULTS, DEFAULT_BUCKETS);
  }

  // ----- slots -----

  /** The interval counted by slot `i`: above the bound before it, up to its own bound; the last slot has none. */
  predicate InSlot(b: seq<real>, i: nat, v: real)
    requires i <= |b|
  {
    (i == 0 || b[i - 1] < v) && (i == |b| || v <= b[i])
  }

  /** The least slot whose bound is not below the value. */
  function SlotOf(b: seq<real>, v: real): (i: nat)
    requires Increasing(b)
    ensures i <= |b| && InSlot(b, i, v)
  {
    if b == [] || v <= b[0] then 0 else 1 + SlotOf(b[1..], v)
  }

  /** `binary_search_by`, with its `Ok` and `Err` merged. */
  method FindSlot(b: seq<real>, v: real) returns (found: bool, slot: nat)
    requires Increasing(b)
    ensures slot <= |b| && InSlot(b, slot, v)
    ensures forall i :: 0 <= i < slot ==> b[i] < v
    ensures forall i :: slot <= i < |b| ==> v <= b[i]
    ensures found <==> v in b
    ensures found ==> slot < |b| && b[slot] == v
  {
    var lo, hi := 0, |b|;
    found := false;
    while lo < hi
      invariant 0 <= lo <= hi <= |b|
      invariant forall i :: 0 <= i < lo ==> b[i] < v
      invariant forall i :: hi <= i < |b| ==> v < b[i]
    {
      var mid := lo + (hi - lo) / 2;
      if b[mid] < v {
        lo := mid + 1;
      } else if v < b[mid] {
        hi := mid;
      } else {
        return true, mid;
      }
    }
    slot := lo;
  }

  /** A value lies in exactly one slot. */
  lemma SlotIsUnique(b: seq<real>, v: real, i: nat, j: nat)
    requires Increasing(b) && i <= |b| && j <= |b| && InSlot(b, j, v)
    ensures InSlot(b, i, v) <==> i == j
  {
  }

  /** How many of the observations are finite and lie in slot `i`. */
  function CountIn(b: seq<real>, h: seq<F64>, i: nat): nat
    requires i <= |b|
  {
    if h == [] then 0
    else
      var last := h[|h| - 1];
      CountIn(b, h[..|h| - 1], i) + if last.Finite? && InSlot(b, i, last.r) then 1 else 0
  }

  function CountFinite(h: seq<F64>): nat {
    if h == [] then 0 else CountFinite(h[..|h| - 1]) + if h[|h| - 1].Finite? then 1 else 0
  }

  function Sum(h: seq<F64>): real {
    if h == [] then 0.0 else Sum(h[..|h| - 1]) + if h[|h| - 1].Finite? then h[|h| - 1].r else 0.0
  }

  /** The finite observations in the first `n` slots, slot by slot. */
  function CountBelow(b: seq<real>, h: seq<F64>, n: nat): nat
    requires n <= |b| + 1
  {
    if n == 0 then 0 else CountBelow(b, h, n - 1) + CountIn(b, h, n - 1)
  }

  lemma {:induction false} CountBelowNext(b: seq<real>, h: seq<F64>, v: F64, n: nat)
    requires n <= |b| + 1 && Increasing(b)
    ensures CountBelow(b, h + [v], n) ==
            CountBelow(b, h, n) + if v.Finite? && exists i: nat :: i < n && InSlot(b, i, v.r) then 1 else 0
  {
    if n > 0 {
      CountBelowNext(b, h, v, n - 1);
      assert (h + [v])[..|h|] == h;
      if v.Finite? && InSlot(b, n - 1, v.r) {
        forall i: nat | i < n - 1 ensures !InSlot(b, i, v.r) {
          SlotIsUnique(b, v.r, i, n - 1);
        }
      }
    }
  }

  lemma {:induction false} CountBelowNothing(b: seq<real>, n: nat)
    requires n <= |b| + 1
    ensures CountBelow(b, [], n) == 0
  {
    if n > 0 {
      CountBelowNothing(b, n - 1);
    }
  }

  /** The slots share out the finite observations: none is missed and none counted twice. */
  lemma {:induction false} SlotsShareOut(b: seq<real>, h: seq<F64>)
    requires Increasing(b)
    ensures CountBelow(b, h, |b| + 1) == CountFinite(h)
  {
    if h == [] {
      CountBelowNothing(b, |b| + 1);
    } else {
      var init, last := h[..|h| - 1], h[|h| - 1];
      SlotsShareOut(b, init);
      CountBelowNext(b, init, last, |b| + 1);
      assert h == init + [last];
      if last.Finite? {
        assert InSlot(b, SlotOf(b, last.r), last.r);
      }
    }
  }
}
