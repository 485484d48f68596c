/**
 * Track length (`track_length`): the sum of the distances between consecutive
 * positions. The great-circle distance itself (`haversine`) is floating-point
 * trigonometry and is a parameter `dist` here.
 */
module TrackDistance {
  import opened Gpx

  /** The length of the path through `points` in the given order: the sum of
      `dist(points[i - 1], points[i])` for every `i` from 1 to `|points| - 1`. */
  function PathLength(points: seq<LatLon>, dist: (LatLon, LatLon) -> real): real
  {
    if |points| < 2 then 0.0
    else PathLength(points[..|points| - 1], dist) + dist(points[|points| - 2], points[|points| - 1])
  }

  /** `track_length`: the accumulating loop over consecutive pairs. */
  method TrackLength(points: seq<LatLon>, dist: (LatLon, LatLon) -> real) returns (total: real)
    ensures total == PathLength(points, dist)
    ensures |points| < 2 ==> total == 0.0
  {
    total := 0.0;
    var i := 1;
    while i < |points|
      invariant 1 <= i <= |points| || (|points| == 0 && i == 1)
      invariant total == PathLength(points[..if i <= |points| then i else 0], dist)
    {
      assert points[..i + 1][..i] == points[..i];
      total := total + dist(points[i - 1], points[i]);
      i := i + 1;
    }
    assert points[..if i <= |points| then i else 0] == points;
  }

  /** A distance that is never negative gives a length that is never negative. */
  lemma {:induction false} PathLengthNonNegative(points: seq<LatLon>, dist: (LatLon, LatLon) -> real)
    requires forall a, b :: dist(a, b) >= 0.0
    ensures PathLength(points, dist) >= 0.0
  {
    if |points| >= 2 {
      PathLengthNonNegative(points[..|points| - 1], dist);
    }
  }

  /** Putting a position in front adds the distance from it to the old first one. */
  lemma {:induction false} PathLengthCons(x: LatLon, points: seq<LatLon>, dist: (LatLon, LatLon) -> real)
    requires |points| >= 1
    ensures PathLength([x] + points, dist) == dist(x, points[0]) + PathLength(points, dist)
  {
    var n := |points|;
    if n == 1 {
      assert [x] + points == [x, points[0]];
      assert ([x] + points)[..1] == [x];
    } else {
      assert ([x] + points)[..n] == [x] + points[..n - 1];
      PathLengthCons(x, points[..n - 1], dist);
    }
  }

  function Reversed(s: seq<LatLon>): (r: seq<LatLon>)
    ensures |r| == |s|
    ensures forall i :: 0 <= i < |s| ==> r[i] == s[|s| - 1 - i]
  {
    if s == [] then [] else [s[|s| - 1]] + Reversed(s[..|s| - 1])
  }

  /** With a symmetric distance, walking the path backwards gives the same length. */
  lemma {:induction false} PathLengthReversed(points: seq<LatLon>, dist: (LatLon, LatLon) -> real)
    requires forall a, b :: dist(a, b) == dist(b, a)
    ensures PathLength(Reversed(points), dist) == PathLength(points, dist)
  {
    var n := |points|;
    if n >= 2 {
      var init := points[..n - 1];
      PathLengthReversed(init, dist);
      assert Reversed(points) == [points[n - 1]] + Reversed(init);
      PathLengthCons(points[n - 1], Reversed(init), dist);
      assert Reversed(init)[0] == points[n - 2];
    } else if n == 1 {
      assert Reversed(points) == points;
    }
  }
}
