/**
 * The batch of uploaded files: the colour palette is doubled until it covers
 * every file, each file is loaded and measured, files without points are
 * skipped, and each kept track takes the colour of its position among ALL the
 * uploaded files. Then the route picker offers "Wszystkie" ("all") followed by
 * every track name, and a choice yields either all tracks or the first track
 * of that name.
 */
module Comparison {
  import opened Wrappers
  import opened Subsequences
  import opened Gpx
  import opened TrackDistance
  import opened Duration
  import opened Metrics

  /** The ten colours the application starts from. */
  const Palette: seq<string> :=
    ["blue", "red", "orange", "green", "purple", "brown", "yellow", "pink", "gray", "black"]

  function Pow2(k: nat): nat
  {
    if k == 0 then 1 else 2 * Pow2(k - 1)
  }

  lemma ShiftByPaletteMultiple(i: nat, n: nat)
    requires n % 10 == 0 && n <= i
    ensures (i - n) % 10 == i % 10
  {
  }

  /**
   * `colors = colors + colors` while there are fewer colours than files: the
   * list ends up long enough, its length is ten times a power of two and was
   * doubled no more than needed, and colour `i` is palette entry `i mod 10`.
   */
  method PaletteFor(files: nat) returns (colors: seq<string>)
    ensures files <= |colors|
    ensures exists k :: |colors| == 10 * Pow2(k)
    ensures |colors| == 10 || |colors| < 2 * files
    ensures forall i :: 0 <= i < |colors| ==> colors[i] == Palette[i % 10]
  {
    colors := Palette;
    ghost var k := 0;
    assert forall i :: 0 <= i < 10 ==> i % 10 == i;
    while |colors| < files
      invariant |colors| == 10 * Pow2(k) && |colors| % 10 == 0
      invariant |colors| == 10 || |colors| < 2 * files
      invariant forall i :: 0 <= i < |colors| ==> colors[i] == Palette[i % 10]
      decreases files - |colors|
    {
      ghost var half := colors;
      colors := colors + colors;
      forall i | 0 <= i < |colors|
        ensures colors[i] == Palette[i % 10]
      {
        if i >= |half| {
          assert colors[i] == half[i - |half|];
          ShiftByPaletteMultiple(i, |half|);
        } else {
          assert colors[i] == half[i];
        }
      }
      k := k + 1;
      assert |colors| == 2 * |half|;
    }
  }

  /** One uploaded file: its name and its parsed content. */
  datatype UploadedFile = UploadedFile(name: string, gpx: GpxFile)

  /** The record kept for one track of the batch. */
  datatype TrackSummary = TrackSummary(
    name: string,
    points: seq<LatLon>,
    elevations: seq<real>,
    start: Option<int>,
    end: Option<int>,
    duration: string,
    distance: real,
    elevationRange: real,
    color: string)

  /** What the batch loop keeps for file number `i`: nothing when it has no
      points, otherwise its metrics and the colour of its position `i`. */
  function Summary(f: UploadedFile, i: nat, dist: (LatLon, LatLon) -> real): Option<TrackSummary>
  {
    var samples := Samples(f.gpx);
    if samples == [] then None
    else
      var points := Positions(samples);
      var elevations := ElevationsOf(samples);
      var times := TimesOf(samples);
      Some(TrackSummary(f.name, points, elevations, StartTime(times), EndTime(times),
                        DurationLabel(times), PathLength(points, dist),
                        ElevationRange(elevations), Palette[i % 10]))
  }

  function Summaries(files: seq<UploadedFile>, dist: (LatLon, LatLon) -> real): seq<Option<TrackSummary>>
  {
    seq(|files|, i requires 0 <= i < |files| => Summary(files[i], i, dist))
  }

  /** The `data` list the batch loop builds. */
  function Batch(files: seq<UploadedFile>, dist: (LatLon, LatLon) -> real): seq<TrackSummary>
  {
    Keep(Summaries(files, dist))
  }

  /** The summary of a file, in terms of what the loader returned for it. */
  lemma SummaryOfLoaded(f: UploadedFile, i: nat, dist: (LatLon, LatLon) -> real,
                        points: seq<LatLon>, elevations: seq<real>, times: seq<int>)
    requires points == Positions(Samples(f.gpx))
    requires elevations == ElevationsOf(Samples(f.gpx))
    requires times == TimesOf(Samples(f.gpx))
    ensures Summary(f, i, dist) ==
      if points == [] then None
      else Some(TrackSummary(f.name, points, elevations, StartTime(times), EndTime(times),
                             DurationLabel(times), PathLength(points, dist),
                             ElevationRange(elevations), Palette[i % 10]))
  {
  }

  /** The loop over `enumerate(uploaded_files)` that fills `data`. */
  method Aggregate(files: seq<UploadedFile>, dist: (LatLon, LatLon) -> real) returns (data: seq<TrackSummary>)
    ensures data == Batch(files, dist)
  {
    var colors := PaletteFor(|files|);
    data := [];
    var i := 0;
    while i < |files|
      invariant 0 <= i <= |files|
      invariant data == Keep(Summaries(files, dist)[..i])
    {
      var f := files[i];
      KeepPrefixStep(Summaries(files, dist), i);
      var points, elevations, times := LoadGpx(f.gpx);
      SummaryOfLoaded(f, i, dist, points, elevations, times);
      if points == [] {
        i := i + 1;
        continue;
      }
      var length := TrackLength(points, dist);
      var summary := TrackSummary(f.name, points, elevations, StartTime(times), EndTime(times),
                                  DurationLabel(times), length, ElevationRange(elevations), colors[i]);
      data := data + [summary];
      i := i + 1;
    }
    assert Summaries(files, dist)[..i] == Summaries(files, dist);
  }

  /**
   * Where every kept track comes from: the positions of its files among the
   * uploads, strictly increasing, so the tracks keep the upload order; each
   * kept track carries its file's name and the colour of that file's upload
   * position, and comes from a file with points; and every file with points
   * is kept.
   */
  ghost function Origins(files: seq<UploadedFile>, dist: (LatLon, LatLon) -> real): (idx: seq<nat>)
    ensures |idx| == |Batch(files, dist)|
    ensures forall k :: 0 <= k < |idx| ==>
      idx[k] < |files| && Samples(files[idx[k]].gpx) != [] &&
      Batch(files, dist)[k] == Summary(files[idx[k]], idx[k], dist).value &&
      Batch(files, dist)[k].name == files[idx[k]].name &&
      Batch(files, dist)[k].color == Palette[idx[k] % 10]
    ensures forall k, l :: 0 <= k < l < |idx| ==> idx[k] < idx[l]
    ensures forall i :: 0 <= i < |files| && Samples(files[i].gpx) != [] ==> i in idx
  {
    var s := Summaries(files, dist);
    var idx := KeptIndices(s);
    assert forall k :: 0 <= k < |idx| ==> s[idx[k]] == Summary(files[idx[k]], idx[k], dist);
    idx
  }

  /** Every file is kept exactly when every file has points. */
  lemma BatchKeepsAll(files: seq<UploadedFile>, dist: (LatLon, LatLon) -> real)
    ensures |Batch(files, dist)| <= |files|
    ensures |Batch(files, dist)| == |files| <==> forall i :: 0 <= i < |files| ==> Samples(files[i].gpx) != []
  {
    var s := Summaries(files, dist);
    KeepKeepsAll(s);
    assert forall i :: 0 <= i < |files| ==> (s[i].Some? <==> Samples(files[i].gpx) != []);
  }

  /** The picker's sentinel for "all routes". */
  const AllRoutes: string := "Wszystkie"

  /** The picker's options: the sentinel, then every track name in order. */
  function RouteOptions(data: seq<TrackSummary>): (options: seq<string>)
    ensures |options| == |data| + 1 && options[0] == AllRoutes
    ensures forall k :: 0 <= k < |data| ==> options[k + 1] == data[k].name
  {
    [AllRoutes] + seq(|data|, k requires 0 <= k < |data| => data[k].name)
  }

  /** `next(d for d in data if d["name"] == key)`: the first track of that name. */
  function FirstNamed(data: seq<TrackSummary>, key: string): (r: Option<nat>)
    ensures r.Some? ==> r.value < |data| && data[r.value].name == key
    ensures r.Some? ==> forall j :: 0 <= j < r.value ==> data[j].name != key
    ensures r.None? <==> forall j :: 0 <= j < |data| ==> data[j].name != key
  {
    if data == [] then None
    else if data[0].name == key then Some(0)
    else
      match FirstNamed(data[1..], key)
      case Some(j) => Some(j + 1)
      case None => None
  }

  /** What the map shows: every track, one track, or the failure `next` raises. */
  datatype Selection = AllTracks(tracks: seq<TrackSummary>) | OneTrack(track: TrackSummary) | NotFound

  /**
   * The route choice: the sentinel yields every track in order; any other key
   * yields the first track of that name, and is an error when no track has it.
   */
  function Select(data: seq<TrackSummary>, key: string): (r: Selection)
    ensures key == AllRoutes ==> r == AllTracks(data)
    ensures key != AllRoutes ==> !r.AllTracks?
    ensures r.NotFound? <==> key != AllRoutes && forall j :: 0 <= j < |data| ==> data[j].name != key
    ensures r.OneTrack? ==> exists j :: 0 <= j < |data| && r.track == data[j] && data[j].name == key &&
                                       forall i :: 0 <= i < j ==> data[i].name != key
  {
    if key == AllRoutes then AllTracks(data)
    else
      match FirstNamed(data, key)
      case Some(j) => OneTrack(data[j])
      case None => NotFound
  }

  /** A key offered by the picker never fails to select. */
  lemma OfferedKeysSelect(data: seq<TrackSummary>, key: string)
    requires key in RouteOptions(data)
    ensures !Select(data, key).NotFound?
  {
  }
}
