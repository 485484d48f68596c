/**
 * Per-track metrics of the batch loop: first and last time (`min(times)`,
 * `max(times)`, absent when there are no times), the duration label with its
 * "brak danych" ("no data") fallback, and the elevation range `np.ptp(elev)`,
 * 0 when there are no elevations.
 */
module Metrics {
  import opened Wrappers
  import opened Duration

  const NoData: string := "brak danych"

  /** `min(times)`. */
  function Earliest(times: seq<int>): (t: int)
    requires times != []
    ensures t in times
    ensures forall i :: 0 <= i < |times| ==> t <= times[i]
  {
    if |times| == 1 then times[0]
    else
      var rest := Earliest(times[..|times| - 1]);
      if times[|times| - 1] < rest then times[|times| - 1] else rest
  }

  /** `max(times)`. */
  function Latest(times: seq<int>): (t: int)
    requires times != []
    ensures t in times
    ensures forall i :: 0 <= i < |times| ==> times[i] <= t
  {
    if |times| == 1 then times[0]
    else
      var rest := Latest(times[..|times| - 1]);
      if times[|times| - 1] > rest then times[|times| - 1] else rest
  }

  function StartTime(times: seq<int>): Option<int>
  {
    if times != [] then Some(Earliest(times)) else None
  }

  function EndTime(times: seq<int>): Option<int>
  {
    if times != [] then Some(Latest(times)) else None
  }

  /** Start and end are present together, exactly when there are times, and the
      start never comes after the end. */
  lemma StartNotAfterEnd(times: seq<int>)
    ensures StartTime(times).Some? <==> times != []
    ensures EndTime(times).Some? <==> times != []
    ensures times != [] ==> StartTime(times).value <= EndTime(times).value
  {
  }

  /**
   * The `duration` entry: "brak danych" exactly when there are no times;
   * otherwise the label of the shape `format_duration` picks for the day part
   * of the span from the first to the last time (which, by `RenderParse`, fixes
   * the text).
   */
  function DurationLabel(times: seq<int>): (r: string)
    ensures r == NoData <==> times == []
    ensures times != [] ==> ParseLabel(r) == Some(Shape(DaySeconds(Earliest(times), Latest(times))))
  {
    if times != [] then
      var text := FormatDuration(Earliest(times), Latest(times));
      assert text != NoData by {
        assert IsDigit(text[0]) && !IsDigit(NoData[0]);
      }
      text
    else NoData
  }

  /** The lowest and the highest elevation. */
  function Extent(elevations: seq<real>): (r: (real, real))
    requires elevations != []
    ensures r.0 in elevations && r.1 in elevations
    ensures forall i :: 0 <= i < |elevations| ==> r.0 <= elevations[i] <= r.1
  {
    if |elevations| == 1 then (elevations[0], elevations[0])
    else
      var (lo, hi) := Extent(elevations[..|elevations| - 1]);
      var e := elevations[|elevations| - 1];
      (if e < lo then e else lo, if e > hi then e else hi)
  }

  /**
   * `np.ptp(elev) if elev else 0`: the largest rise between any two
   * elevations, attained by some pair; 0 when there are none.
   */
  function ElevationRange(elevations: seq<real>): (r: real)
    ensures r >= 0.0
    ensures elevations == [] ==> r == 0.0
    ensures forall i, j :: 0 <= i < |elevations| && 0 <= j < |elevations| ==> elevations[i] - elevations[j] <= r
    ensures elevations != [] ==> exists i, j :: 0 <= i < |elevations| && 0 <= j < |elevations| && elevations[i] - elevations[j] == r
  {
    if elevations != [] then
      var (lo, hi) := Extent(elevations);
      hi - lo
    else 0.0
  }
}
