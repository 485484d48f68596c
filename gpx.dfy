/**
 * GPX flattening (`load_gpx`): a parsed GPX document is a sequence of tracks,
 * each a sequence of segments, each a sequence of samples. Loading walks them in
 * file order and collects every sample's position, the elevations that are
 * present and the times that are present.
 */
module Gpx {
  import opened Wrappers
  import opened Subsequences

  /** A geographic position in degrees. */
  datatype LatLon = LatLon(lat: real, lon: real)

  /** One recorded sample: a position with an optional elevation (metres) and
      an optional timestamp (whole seconds). */
  datatype GpxPoint = GpxPoint(latitude: real, longitude: real, elevation: Option<real>, time: Option<int>)

  datatype GpxSegment = GpxSegment(points: seq<GpxPoint>)

  datatype GpxTrack = GpxTrack(segments: seq<GpxSegment>)

  /** A parsed GPX document, as the XML parser hands it over. */
  datatype GpxFile = GpxFile(tracks: seq<GpxTrack>)

  /** The samples of a list of segments, one segment after the other. */
  function SegmentsSamples(segments: seq<GpxSegment>): seq<GpxPoint>
  {
    if segments == [] then []
    else SegmentsSamples(segments[..|segments| - 1]) + segments[|segments| - 1].points
  }

  /** The samples of a list of tracks, one track after the other. */
  function TracksSamples(tracks: seq<GpxTrack>): seq<GpxPoint>
  {
    if tracks == [] then []
    else TracksSamples(tracks[..|tracks| - 1]) + SegmentsSamples(tracks[|tracks| - 1].segments)
  }

  /** Every sample of the document in file order. */
  function Samples(gpx: GpxFile): seq<GpxPoint>
  {
    TracksSamples(gpx.tracks)
  }

  function Positions(samples: seq<GpxPoint>): (r: seq<LatLon>)
    ensures |r| == |samples|
  {
    seq(|samples|, i requires 0 <= i < |samples| => LatLon(samples[i].latitude, samples[i].longitude))
  }

  function ElevationField(samples: seq<GpxPoint>): seq<Option<real>>
  {
    seq(|samples|, i requires 0 <= i < |samples| => samples[i].elevation)
  }

  function TimeField(samples: seq<GpxPoint>): seq<Option<int>>
  {
    seq(|samples|, i requires 0 <= i < |samples| => samples[i].time)
  }

  /** The elevations that are present, in sample order. */
  function ElevationsOf(samples: seq<GpxPoint>): seq<real>
  {
    Keep(ElevationField(samples))
  }

  /** The times that are present, in sample order. */
  function TimesOf(samples: seq<GpxPoint>): seq<int>
  {
    Keep(TimeField(samples))
  }

  /** What the loader has collected after reading the samples `seen`. */
  ghost predicate Loaded(seen: seq<GpxPoint>, points: seq<LatLon>, elevations: seq<real>, times: seq<int>)
  {
    points == Positions(seen) && elevations == ElevationsOf(seen) && times == TimesOf(seen)
  }

  lemma LoadedStep(before: seq<GpxPoint>, samples: seq<GpxPoint>, p: nat,
                   points: seq<LatLon>, elevations: seq<real>, times: seq<int>)
    requires p < |samples|
    requires Loaded(before + samples[..p], points, elevations, times)
    ensures Loaded(before + samples[..p + 1],
                   points + [LatLon(samples[p].latitude, samples[p].longitude)],
                   elevations + (if samples[p].elevation.Some? then [samples[p].elevation.value] else []),
                   times + (if samples[p].time.Some? then [samples[p].time.value] else []))
  {
    var seen := before + samples[..p];
    var point := samples[p];
    assert before + samples[..p + 1] == seen + [point] by {
      assert samples[..p + 1] == samples[..p] + [point];
    }
    assert Positions(seen + [point]) == Positions(seen) + [LatLon(point.latitude, point.longitude)];
    assert ElevationField(seen + [point]) == ElevationField(seen) + [point.elevation];
    assert TimeField(seen + [point]) == TimeField(seen) + [point.time];
    KeepAppend(ElevationField(seen), point.elevation);
    KeepAppend(TimeField(seen), point.time);
  }

  /**
   * `load_gpx`: one position per sample, the present elevations and the present
   * times, each in file order.
   */
  method LoadGpx(gpx: GpxFile) returns (points: seq<LatLon>, elevations: seq<real>, times: seq<int>)
    ensures points == Positions(Samples(gpx))
    ensures elevations == ElevationsOf(Samples(gpx))
    ensures times == TimesOf(Samples(gpx))
    ensures |elevations| <= |points| && |times| <= |points|
  {
    points, elevations, times := [], [], [];
    var t := 0;
    while t < |gpx.tracks|
      invariant 0 <= t <= |gpx.tracks|
      invariant Loaded(TracksSamples(gpx.tracks[..t]), points, elevations, times)
    {
      var track := gpx.tracks[t];
      ghost var beforeTrack := TracksSamples(gpx.tracks[..t]);
      var g := 0;
      assert beforeTrack + SegmentsSamples(track.segments[..0]) == beforeTrack;
      while g < |track.segments|
        invariant 0 <= g <= |track.segments|
        invariant Loaded(beforeTrack + SegmentsSamples(track.segments[..g]), points, elevations, times)
      {
        var segment := track.segments[g];
        ghost var beforeSegment := beforeTrack + SegmentsSamples(track.segments[..g]);
        var p := 0;
        assert beforeSegment + segment.points[..0] == beforeSegment;
        while p < |segment.points|
          invariant 0 <= p <= |segment.points|
          invariant Loaded(beforeSegment + segment.points[..p], points, elevations, times)
        {
          var point := segment.points[p];
          LoadedStep(beforeSegment, segment.points, p, points, elevations, times);
          points := points + [LatLon(point.latitude, point.longitude)];
          if point.elevation.Some? {
            elevations := elevations + [point.elevation.value];
          }
          if point.time.Some? {
            times := times + [point.time.value];
          }
          p := p + 1;
        }
        SegmentsSamplesStep(beforeTrack, track.segments, g);
        g := g + 1;
      }
      TracksSamplesStep(gpx.tracks, t);
      t := t + 1;
    }
    assert gpx.tracks[..t] == gpx.tracks;
  }

  lemma SegmentsSamplesStep(before: seq<GpxPoint>, segments: seq<GpxSegment>, g: nat)
    requires g < |segments|
    ensures before + SegmentsSamples(segments[..g]) + segments[g].points[..|segments[g].points|]
         == before + SegmentsSamples(segments[..g + 1])
  {
    assert segments[..g + 1][..g] == segments[..g];
    assert segments[g].points[..|segments[g].points|] == segments[g].points;
  }

  lemma TracksSamplesStep(tracks: seq<GpxTrack>, t: nat)
    requires t < |tracks|
    ensures TracksSamples(tracks[..t]) + SegmentsSamples(tracks[t].segments[..|tracks[t].segments|])
         == TracksSamples(tracks[..t + 1])
  {
    assert tracks[..t + 1][..t] == tracks[..t];
    assert tracks[t].segments[..|tracks[t].segments|] == tracks[t].segments;
  }

  lemma {:induction false} SegmentsSamplesAppend(a: seq<GpxSegment>, b: seq<GpxSegment>)
    ensures SegmentsSamples(a + b) == SegmentsSamples(a) + SegmentsSamples(b)
  {
    if b == [] {
      assert a + b == a;
    } else {
      var init := b[..|b| - 1];
      assert (a + b)[..|a + b| - 1] == a + init;
      assert (a + b)[|a + b| - 1] == b[|b| - 1];
      SegmentsSamplesAppend(a, init);
    }
  }

  lemma {:induction false} TracksSamplesAppend(a: seq<GpxTrack>, b: seq<GpxTrack>)
    ensures TracksSamples(a + b) == TracksSamples(a) + TracksSamples(b)
  {
    if b == [] {
      assert a + b == a;
    } else {
      var init := b[..|b| - 1];
      assert (a + b)[..|a + b| - 1] == a + init;
      assert (a + b)[|a + b| - 1] == b[|b| - 1];
      TracksSamplesAppend(a, init);
    }
  }

  /** The number of samples that come before segment `g` of track `t`. */
  function Offset(gpx: GpxFile, t: nat, g: nat): nat
    requires t < |gpx.tracks| && g <= |gpx.tracks[t].segments|
  {
    |TracksSamples(gpx.tracks[..t])| + |SegmentsSamples(gpx.tracks[t].segments[..g])|
  }

  /** A segment's samples fill the places up to the next segment's offset. */
  lemma OffsetNextSegment(gpx: GpxFile, t: nat, g: nat)
    requires t < |gpx.tracks| && g < |gpx.tracks[t].segments|
    ensures Offset(gpx, t, g) + |gpx.tracks[t].segments[g].points| == Offset(gpx, t, g + 1)
  {
    var segs := gpx.tracks[t].segments;
    assert segs[..g + 1][..g] == segs[..g];
  }

  /** The end of one track's last segment is the start of the next track. */
  lemma OffsetNextTrack(gpx: GpxFile, t: nat)
    requires t + 1 < |gpx.tracks|
    ensures Offset(gpx, t, |gpx.tracks[t].segments|) == Offset(gpx, t + 1, 0)
  {
    var ts := gpx.tracks;
    assert ts[t].segments[..|ts[t].segments|] == ts[t].segments;
    assert ts[..t + 1][..t] == ts[..t];
    assert ts[t + 1].segments[..0] == [];
  }

  /** The first track starts the flattened list and the end of the last track
      is its end: no sample is left over. */
  lemma OffsetEnd(gpx: GpxFile)
    requires |gpx.tracks| > 0
    ensures Offset(gpx, 0, 0) == 0
    ensures Offset(gpx, |gpx.tracks| - 1, |gpx.tracks[|gpx.tracks| - 1].segments|) == |Samples(gpx)|
  {
    var ts := gpx.tracks;
    var last := ts[|ts| - 1];
    assert last.segments[..|last.segments|] == last.segments;
    assert ts[..|ts|] == ts;
    assert ts[..|ts| - 1] == ts[..|ts|][..|ts| - 1];
  }

  /**
   * Sample `p` of segment `g` of track `t` sits in the flattened list right
   * after all samples of the earlier tracks and of the earlier segments of its
   * own track: one entry per sample, in file order.
   */
  lemma SampleAt(gpx: GpxFile, t: nat, g: nat, p: nat)
    requires t < |gpx.tracks|
    requires g < |gpx.tracks[t].segments|
    requires p < |gpx.tracks[t].segments[g].points|
    ensures Offset(gpx, t, g) + p < |Samples(gpx)|
    ensures Samples(gpx)[Offset(gpx, t, g) + p] == gpx.tracks[t].segments[g].points[p]
  {
    var ts := gpx.tracks;
    var segs := ts[t].segments;
    assert ts == ts[..t] + [ts[t]] + ts[t + 1..];
    TracksSamplesAppend(ts[..t] + [ts[t]], ts[t + 1..]);
    TracksSamplesAppend(ts[..t], [ts[t]]);
    assert [ts[t]][..0] == [];
    assert segs == segs[..g] + [segs[g]] + segs[g + 1..];
    SegmentsSamplesAppend(segs[..g] + [segs[g]], segs[g + 1..]);
    SegmentsSamplesAppend(segs[..g], [segs[g]]);
    assert [segs[g]][..0] == [];
  }
}
