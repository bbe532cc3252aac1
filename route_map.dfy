/** The point pipeline of components/customer/parcel-route-map.tsx: drop GPS points with a
    non-finite coordinate, thin the rest to what the Directions request accepts, and split
    them into origin, waypoints and destination. The map loader and rendering are outside
    the model. */
module RouteMap {
  import opened Common

  datatype Point = Point(lat: Number, lng: Number, createdAt: Option<string>)

  /** `Number.isFinite(p.lat) && Number.isFinite(p.lng)`. */
  predicate IsFinitePoint(p: Point) {
    p.lat.Finite? && p.lng.Finite?
  }

  /** `sanitizedPoints`: exactly the finite points, in their original order. */
  function Sanitize(points: seq<Point>): (r: seq<Point>)
    ensures forall p | p in r :: IsFinitePoint(p)
    ensures forall p | p in points :: p in r <==> IsFinitePoint(p)
    ensures forall p | p in points :: multiset(r)[p] == if IsFinitePoint(p) then multiset(points)[p] else 0
    ensures Subsequence(r, points)
  {
    var r := Filter(points, IsFinitePoint);
    forall p | p in points ensures p in r <==> IsFinitePoint(p) {
      FilterMembership(points, IsFinitePoint, p);
    }
    r
  }

  /** The `max` of `sampledPoints`: at most 23 strided points (plus the last). */
  const MaxSampled: nat := 23

  /** The indices `j` in `[i, n)` that `filter((_, j) => j % step === 0)` keeps. */
  function StrideIndices(n: nat, step: nat, i: nat): (ix: seq<nat>)
    requires step > 0
    ensures forall k | 0 <= k < |ix| :: i <= ix[k] < n && ix[k] % step == 0
    ensures forall j | i <= j < n && j % step == 0 :: j in ix
    ensures forall k, l | 0 <= k < l < |ix| :: ix[k] < ix[l]
    ensures i < n && i % step == 0 ==> |ix| > 0 && ix[0] == i
    decreases n - i
  {
    if i >= n then []
    else if i % step == 0 then [i] + StrideIndices(n, step, i + 1)
    else StrideIndices(n, step, i + 1)
  }

  /** The positions of `sanitized` that `sampledPoints` keeps: all of them up to 23 points;
      beyond that every multiple of `step = ceil(n / 23)`, then the last position unless it
      is kept already. The `reduced[reduced.length - 1] !== last` test compares objects,
      which here are told apart by position. */
  function SampleIndices(n: nat): (ix: seq<nat>)
  {
    if n <= MaxSampled then seq(n, j => j)
    else
      var step := CeilDiv(n, MaxSampled);
      var reduced := StrideIndices(n, step, 0);
      assert 0 in reduced;
      if reduced[|reduced| - 1] != n - 1 then reduced + [n - 1] else reduced
  }

  /** The points at the given positions. */
  function Pick<T>(s: seq<T>, ix: seq<nat>): (r: seq<T>)
    requires forall k | 0 <= k < |ix| :: ix[k] < |s|
    ensures |r| == |ix| && forall k | 0 <= k < |ix| :: r[k] == s[ix[k]]
  {
    seq(|ix|, k requires 0 <= k < |ix| => s[ix[k]])
  }

  /** The kept positions are increasing and in range, and the first and the last position
      are always kept. */
  lemma SampleIndicesSpec(n: nat)
    ensures var ix := SampleIndices(n);
      && (forall k | 0 <= k < |ix| :: ix[k] < n)
      && (forall k, l | 0 <= k < l < |ix| :: ix[k] < ix[l])
      && (n > 0 ==> |ix| > 0 && ix[0] == 0 && ix[|ix| - 1] == n - 1)
  {
    if n > MaxSampled {
      StridedIndicesSpec(n, CeilDiv(n, MaxSampled));
    }
  }

  lemma StridedIndicesSpec(n: nat, step: nat)
    requires n > MaxSampled && step == CeilDiv(n, MaxSampled)
    ensures step > 0
    ensures var ix := SampleIndices(n);
      && (forall k | 0 <= k < |ix| :: ix[k] < n)
      && (forall k, l | 0 <= k < l < |ix| :: ix[k] < ix[l])
      && |ix| > 0 && ix[0] == 0 && ix[|ix| - 1] == n - 1
  {
    var reduced := StrideIndices(n, step, 0);
    assert IncreasingBelow(reduced, n);
    if reduced[|reduced| - 1] != n - 1 {
      AppendLastIncreasing(reduced, n);
    }
  }

  predicate IncreasingBelow(ix: seq<nat>, n: nat) {
    && (forall k | 0 <= k < |ix| :: ix[k] < n)
    && (forall k, l | 0 <= k < l < |ix| :: ix[k] < ix[l])
  }

  /** Appending `n - 1` after an increasing run that stops short of it keeps it increasing. */
  lemma AppendLastIncreasing(ix: seq<nat>, n: nat)
    requires IncreasingBelow(ix, n) && ix != [] && ix[|ix| - 1] != n - 1
    ensures IncreasingBelow(ix + [n - 1], n)
  {
    var r := ix + [n - 1];
    forall k, l | 0 <= k < l < |r| ensures r[k] < r[l] {
      if l == |ix| {
        assert r[k] == ix[k] <= ix[|ix| - 1] < n - 1;
      } else {
        assert r[k] == ix[k] && r[l] == ix[l];
      }
    }
  }

  /** Above 23 points, exactly the multiples of `step = ceil(n / 23)` are kept, with the
      last position added when it is not one. */
  lemma SampleIndicesStride(n: nat)
    requires n > MaxSampled
    ensures forall j | 0 <= j < n :: j in SampleIndices(n) <==> j % CeilDiv(n, MaxSampled) == 0 || j == n - 1
  {
    var step := CeilDiv(n, MaxSampled);
    var reduced := StrideIndices(n, step, 0);
    assert forall j | j in reduced :: j % step == 0 by {
      forall j | j in reduced ensures j % step == 0 {
        var k :| 0 <= k < |reduced| && reduced[k] == j;
      }
    }
  }

  /** `sampledPoints`. */
  function Sample(points: seq<Point>): (r: seq<Point>)
  {
    SampleIndicesSpec(|points|);
    Pick(points, SampleIndices(|points|))
  }

  /** Up to 23 points pass through unchanged. */
  lemma SampleSmallIdentity(points: seq<Point>)
    requires |points| <= MaxSampled
    ensures Sample(points) == points
  {
  }

  /** The first and last points survive sampling, which keeps at most 24 points, in their
      original order. */
  lemma SampleSpec(points: seq<Point>)
    ensures var r := Sample(points);
      && |r| <= MaxSampled + 1
      && Subsequence(r, points)
      && (points != [] ==> r != [] && r[0] == points[0] && r[|r| - 1] == points[|points| - 1])
  {
    var n := |points|;
    var ix := SampleIndices(n);
    SampleIndicesSpec(n);
    PickSubsequence(points, ix);
    if n > MaxSampled {
      var step := CeilDiv(n, MaxSampled);
      StrideCount(n, step);
    }
  }

  /** With `step = ceil(n / 23)` at most 23 multiples of `step` lie below `n`. */
  lemma StrideCount(n: nat, step: nat)
    requires n > MaxSampled && step == CeilDiv(n, MaxSampled)
    ensures step > 0 && |StrideIndices(n, step, 0)| <= MaxSampled
  {
    var ix := StrideIndices(n, step, 0);
    assert n <= step * MaxSampled;
    if |ix| > 0 {
      StrideGrowth(ix, step, |ix| - 1);
      assert (|ix| - 1) * step < MaxSampled * step;
      MultiplyCancel(|ix| - 1, MaxSampled, step);
    }
  }

  /** In an increasing run of multiples of `step`, the `k`-th is at least `k * step`. */
  lemma {:induction false} StrideGrowth(ix: seq<nat>, step: nat, k: nat)
    requires step > 0 && k < |ix|
    requires forall i | 0 <= i < |ix| :: ix[i] % step == 0
    requires forall i, j | 0 <= i < j < |ix| :: ix[i] < ix[j]
    ensures ix[k] >= k * step
  {
    if k > 0 {
      StrideGrowth(ix, step, k - 1);
      NextMultiple(ix[k - 1], ix[k], step);
    }
  }

  lemma NextMultiple(a: nat, b: nat, step: nat)
    requires step > 0 && a % step == 0 && b % step == 0 && a < b
    ensures b >= a + step
  {
    assert a == (a / step) * step;
    assert b == (b / step) * step;
    assert a / step < b / step by {
      if a / step >= b / step {
        MultiplyMonotone(b / step, a / step, step);
      }
    }
    MultiplyMonotone(a / step + 1, b / step, step);
  }

  lemma MultiplyCancel(x: int, y: int, step: nat)
    requires x * step < y * step
    ensures x < y
  {
    if x >= y {
      MultiplyMonotone(y, x, step);
    }
  }

  lemma MultiplyMonotone(x: int, y: int, step: nat)
    requires x <= y
    ensures x * step <= y * step
  {
  }

  /** Points picked at increasing positions form a subsequence. */
  lemma {:induction false} PickSubsequence<T>(s: seq<T>, ix: seq<nat>)
    requires forall k | 0 <= k < |ix| :: ix[k] < |s|
    requires forall k, l | 0 <= k < l < |ix| :: ix[k] < ix[l]
    ensures Subsequence(Pick(s, ix), s)
    decreases |s|
  {
    var r := Pick(s, ix);
    if ix != [] {
      if ix[0] == 0 {
        var tail := seq(|ix| - 1, k requires 0 <= k < |ix| - 1 => ix[k + 1] - 1);
        PickSubsequence(s[1..], tail);
        assert Pick(s[1..], tail) == r[1..];
      } else {
        var shifted := seq(|ix|, k requires 0 <= k < |ix| => ix[k] - 1);
        assert forall k | 0 <= k < |ix| :: ix[k] >= ix[0] > 0;
        PickSubsequence(s[1..], shifted);
        assert Pick(s[1..], shifted) == r;
      }
    }
  }

  /** The Directions request built from the sampled points. */
  datatype Route = Route(origin: Point, waypoints: seq<Point>, destination: Point)

  /** A route is requested only from two points up; origin and destination are the ends and
      the waypoints are the interior points (`slice(1, -1)`). */
  function RoutePlan(sampled: seq<Point>): (r: Option<Route>)
    ensures r.None? <==> |sampled| < 2
    ensures r.Some? ==> [r.value.origin] + r.value.waypoints + [r.value.destination] == sampled
    ensures r.Some? ==> |r.value.waypoints| == |sampled| - 2
  {
    if |sampled| < 2 then None
    else
      var route := Route(sampled[0], sampled[1..|sampled| - 1], sampled[|sampled| - 1]);
      assert sampled == [sampled[0]] + sampled[1..|sampled| - 1] + [sampled[|sampled| - 1]];
      Some(route)
  }

  /** The text under the map: the error, else the missing-key hint, else the too-few-points
      hint; nothing when there is a key, two points and no error. */
  function FallbackText(hasApiKey: bool, sampledCount: nat, error: Option<string>): (t: Option<string>)
    ensures t.None? <==> hasApiKey && sampledCount >= 2 && !Truthy(error)
    ensures Truthy(error) ==> t == error
  {
    if !hasApiKey || sampledCount < 2 || Truthy(error) then
      Some(if Truthy(error) then error.value
           else if !hasApiKey then "Add NEXT_PUBLIC_GOOGLE_MAPS_API_KEY to view the map."
           else "Need at least 2 GPS points to draw a road route.")
    else None
  }
}
