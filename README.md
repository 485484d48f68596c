# GPX route comparison: a verified model of the track analysis

The application compares GPS recordings. The user uploads several GPX files.
Each file is flattened into its positions, its elevations and its timestamps.
Each track gets a length, an elevation range, a start, an end and a
duration label ("2 godz 15 min 30 sek"). Each track also gets a display
colour. Files without any points are skipped. The user then picks either
"Wszystkie" (all routes) or a single route by name for the map.

This project models that analysis in Dafny and proves what it computes:

- `wrappers.dfy` holds `Option`, which stands for Python's `None`.
- `subsequences.dfy` holds `Keep`: the present values of a sequence of
  optional values, in order. The function `KeptIndices` gives the positions
  they come from, and its contract says `Keep` is exactly that subsequence.
  The loader's two filters and the skipping of empty files are both
  instances of it.
- `gpx.dfy` holds the parsed GPX structure (tracks, segments, samples) and
  `LoadGpx`, the triple loop of `load_gpx`.
- `track_length.dfy` holds `TrackLength`, the accumulating loop of
  `track_length`, and the path length it computes.
- `duration.dfy` holds `format_duration`: the day part of the span, the two
  `divmod`s, the three-way label choice, decimal rendering, and a parser
  that reads a label back.
- `metrics.dfy` holds the per-track metrics: `min`/`max` of the times, the
  "brak danych" fallback and `np.ptp` of the elevations.
- `comparison.dfy` holds the batch: palette doubling, the loop over
  `enumerate(uploaded_files)`, the picker's options and the route choice.

Modelling choices:

- Latitude, longitude, elevation and distance are exact `real`s.
- Timestamps are whole seconds (`int`).
- The great-circle distance `haversine` is a parameter `dist`. Lemmas that
  need it to be non-negative or symmetric say so.
- External calls are not modelled. The GPX parser's output is the input
  datatype `GpxFile`. The uploaded files are the input sequence of
  `UploadedFile`. The user's choice in the select box is the parameter `key`.

Notes on what the code does:

- **Reversed time spans.** `format_duration` reduces the difference modulo
  one day, as `timedelta.seconds` does, so `DaySeconds` does the same. A
  negative difference therefore wraps around instead of failing. In the batch
  the start is the minimum and the end the maximum, so the span is never
  negative. Spans of a day or more lose their whole days.
- **Parse failures.** The code does not catch the parser's exception, so one
  malformed file stops the whole batch. Parsing is not part of this model.
- **Colours.** A file's colour comes from its position among all uploads, not
  among the kept tracks. So a skipped file still uses up a colour.
- **The start/end test.** `if start_time and end_time` is true exactly when
  there are timestamps, because datetime values are always truthy.
  `DurationLabel` therefore tests `times != []`.

## Model

| member | source | states |
|---|---|---|
| `Gpx.LoadGpx` | app.py:9-22 | positions of every sample in file order; elevations and times are `Keep` of the samples' optional fields, so there are never more of them than positions |
| `Gpx.SampleAt` | app.py:14-17 | sample p of segment g of track t is at flat position (samples of earlier tracks + samples of earlier segments + p) |
| `Gpx.OffsetNextSegment` | app.py:15-17 | a segment's samples occupy exactly the places up to where the next segment of the track starts |
| `Gpx.OffsetNextTrack` | app.py:14-15 | the place after a track's last segment is where the next track starts |
| `Gpx.OffsetEnd` | app.py:14-17 | the first track starts at place 0 and the last track ends at the end of the list: one entry per sample, in file order, none left over |
| `Subsequences.Keep` | app.py:18-21 | filtering never yields more values than there were samples |
| `Subsequences.KeptIndices` | app.py:18-21 | the kept values are exactly the present ones, in order: strictly increasing source positions, each holding the kept value, and every present entry among them |
| `Subsequences.KeepKeepsAll` | app.py:18-21 | nothing is dropped iff every sample has the field |
| `TrackDistance.TrackLength` | app.py:33-37 | the accumulator loop returns the sum of `dist` over consecutive pairs in order, and 0 for fewer than two points |
| `TrackDistance.PathLengthNonNegative` | app.py:33-37 | with a non-negative distance the track length is non-negative |
| `TrackDistance.PathLengthCons` | app.py:33-37 | putting a point in front adds the distance from it to the old first point |
| `TrackDistance.PathLengthReversed` | app.py:33-37 | with a symmetric distance the reversed track has the same length |
| `Duration.DaySeconds` | app.py:40-41 | `delta.seconds` lies in 0..86399, is congruent to end - start modulo a day, and equals it for spans under a day |
| `Duration.Breakdown` | app.py:41-42 | the two `divmod`s give hours ≤ 23, minutes < 60, seconds < 60 with hours·3600 + minutes·60 + seconds = total |
| `Duration.Shape` | app.py:43-48 | three-part label iff total ≥ 3600; minutes/seconds iff 60 ≤ total < 3600; seconds only iff total < 60; shown parts are in range and total the input |
| `Duration.Decimal` | app.py:44-48 | the numeral of a number is a non-empty string of digits with no leading zero unless the number is 0, as `str(n)` writes it |
| `Duration.DecimalRoundTrip` | app.py:44-48 | the numeral reads back as the number |
| `Duration.NumeralRoundTrip` | app.py:44-48 | every digit string without a superfluous leading zero is the numeral of its value, so the numeral is unique |
| `Duration.RenderParse` | app.py:43-48 | a text that reads back as a label is exactly that label's rendering |
| `Duration.ParseRender` | app.py:43-48 | every label text reads back as its shape and numbers, so different labels give different texts |
| `Duration.FormatDuration` | app.py:39-48 | the text reads back as the shape chosen for the day part of end - start (with `RenderParse`, this fixes the exact text), stands for exactly that many seconds, and starts with a digit |
| `Duration.FormatSecondsExample` | app.py:47-48 | 45 s gives "45 sek" |
| `Duration.FormatMinutesExample` | app.py:45-46 | 310 s gives "5 min 10 sek" |
| `Duration.FormatHoursExample` | app.py:43-44 | 8130 s gives "2 godz 15 min 30 sek" |
| `Metrics.Earliest` | app.py:66 | `min(times)` is one of the times and no time is smaller |
| `Metrics.Latest` | app.py:67 | `max(times)` is one of the times and no time is larger |
| `Metrics.StartNotAfterEnd` | app.py:66-67 | start and end are present exactly when there are times, and start ≤ end |
| `Metrics.DurationLabel` | app.py:68 | "brak danych" iff there are no times; otherwise it reads back as the shape `format_duration` picks for the day part of max − min, which fixes the text |
| `Metrics.Extent` | app.py:70 | the lowest and highest elevations are elevations and bound all others |
| `Metrics.ElevationRange` | app.py:70 | `ptp`: ≥ 0, 0 with no elevations, no two elevations differ by more, and some pair differs by exactly it |
| `Comparison.PaletteFor` | app.py:57-60 | the doubled list covers every file, has length 10·2^k, was doubled no more than needed, and colour i is palette entry i mod 10 |
| `Comparison.Aggregate` | app.py:62-81 | the loop builds exactly the batch: one record per file with points, in order, with its metrics and `colors[i]` |
| `Comparison.Origins` | app.py:62-81 | each kept track comes from a file with points, carries that file's name and the colour of its upload position i (palette entry i mod 10); upload order is kept; every file with points is kept |
| `Comparison.BatchKeepsAll` | app.py:64-65 | there are never more tracks than files, and as many iff every file has points |
| `Comparison.RouteOptions` | app.py:84 | the options are "Wszystkie" followed by every track name in order |
| `Comparison.FirstNamed` | app.py:96 | the generator's first match: a track of that name with none before it, or none iff no track has the name |
| `Comparison.Select` | app.py:91-96 | "Wszystkie" yields all tracks in order; another key yields the first track of that name, or `NotFound` (the `StopIteration`) iff no track has it |
| `Comparison.OfferedKeysSelect` | app.py:84-96 | a key taken from the options never fails to select |

## Left out

- `haversine` (app.py:24-31) is floating-point trigonometry. It is the parameter `dist`. Its symmetry and non-negativity are hypotheses of the lemmas that use them.
- `TrackDistance.TrackLength` adds exact reals; the source adds floats, and their rounding is not modelled.
- Rounding in the summary table (`round(..., 2)`, `round(..., 1)`, app.py:110-111 and 122-123) is float rounding and is not modelled.
- `gpxpy.parse` (app.py:10) is a foreign XML parser. Its result is the input `GpxFile`, and its exceptions are not modelled.
- Timestamps are whole seconds. `Duration.DaySeconds` therefore ignores the microseconds a `timedelta` can carry.
- `strftime` formatting of start and end (app.py:107-108) is not modelled. The summary keeps the integer timestamps.
- The Streamlit page is UI glue and is not modelled: title, uploader, select box, columns, markdown, download buttons, `st.info` (app.py:50-55, 85-89, 101, 113, 129-151).
- The folium map (app.py:92-99) is rendering and is not modelled: centring on the first point, polylines, line weights and opacities. One consequence is not modelled either. When every uploaded file is empty, `data` is empty and `data[0]` at app.py:92 fails.
- The pandas table and the CSV/Excel export (app.py:103-148) are library wrappers and I/O. They are not modelled.
- `np.ptp` is modelled only as max − min of the elevations.
