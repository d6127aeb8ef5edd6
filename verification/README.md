# Track analytics of sport-monitoring, in Dafny

This project models the track-analytics engine of the sport-monitoring
dashboard. It is the part that turns a recorded GPS track (a list of points
with latitude, longitude, elevation and timestamp) into derived metrics:

- the segment walk of `calculate_metrics` in `pages/overview.py`, which skips
  paused segments (time gap above `pause_threshold_minutes * 60` seconds),
  computes km/h speeds with a zero-gap guard, builds the cumulative distance
  series and sums distance and time over kept segments;
- the speed smoother `smooth_speed_data`: a pandas centred rolling mean over
  five samples, then a backward fill and a forward fill;
- the summary of `calculate_metrics`: `max`/`min`/mean of the smoothed speeds
  (0 when there are none), elevation extremes over all points, distance in km;
- the calorie estimate of the overview callback: MET table with default 1,
  +1 for more than 500 m of climbing, +1 above 20 km/h, `met * weight * hours`,
  and the message shown when a profile setting is missing;
- the activity guessed from the average speed (`update_activity_dropdown`);
- the split of the total time into hours, minutes and seconds;
- the earlier variant `calculate_metrics` of `simple_overview.py`: no pause
  filter, raw-speed extremes and mean, time from first to last timestamp,
  calories from fixed constants (80 kg, MET 12).

Modules, one per component: `Track` (points, segments, elevations),
`SegmentWalk` (the loop), `Smoothing`, `Overview` (the aggregation),
`Activity` (calories and activity guess), `TimeFormat`, `SimpleOverview`;
with helpers `SeqMath` (sums, extremes, means, running totals), `Floats`
(Python floats with NaN, and `max`/`min`/`sum` on them) and `Outcomes`.

Modelling choices:

- A Python float is `Floats.Num`: `Finite(real)` or `NaN`. Comparisons with
  NaN are false, NaN absorbs addition, and `max`/`min` follow CPython's fold
  (the running extreme is replaced only by an item that compares
  greater/less), so a list starting with NaN has NaN as max and min.
- Rounding of floating point is not modelled: arithmetic is on exact reals.
- The Haversine distance is a parameter `dist: (Point, Point) -> real`;
  non-negativity is required only by the lemmas that need it.
- Timestamps are seconds as reals. Nothing checks they increase: a negative
  time gap is not a pause, gets speed 0, and is added to the time total,
  as in the code.
- Exceptions become `Result` errors: `max(elevations)` on an empty track
  (`Overview.TrackError.EmptyTrack`), and `max(speeds)` with fewer than two
  points in the variant (`SimpleOverview.SimpleError.TooFewPoints`).
- Profile settings are `Option`s tested with Python truthiness: `None`, `0`,
  `0.0` and `""` count as missing. The settings are taken to be numbers
  (weight, height, age) or text (activity, sex), as the settings page writes
  them.

Consequences of the code worth knowing:

- With one to four speeds no centred window of five is full, so pandas
  yields NaN everywhere and the fills have nothing to copy. The speed summary
  is then NaN for all three values, the `> 20` calorie adjustment does not
  apply, and the activity guess is Walking.
- The profile guard tests only the truthiness of all five settings (activity,
  weight, height, age, sex), so a negative weight or time still gives a
  number.

## Model

| member | source | states |
|---|---|---|
| SegmentWalk.DefaultPauseIsOneMinute | pages/overview.py:96-111 | with the default `pause_threshold_minutes=1` a segment is skipped exactly when its gap exceeds 60 seconds |
| SegmentWalk.SegmentSpeed | pages/overview.py:114-117 | a segment whose time does not advance has speed 0 rather than a division by zero |
| SegmentWalk.SegmentSpeedMeaning | pages/overview.py:114-117 | for a positive time gap, speed times gap equals distance times 3.6; otherwise the speed is exactly 0; speeds of non-negative distances are non-negative |
| SegmentWalk.Step | pages/overview.py:111-121 | a paused segment returns the loop state unchanged; a kept one adds exactly one speed |
| SegmentWalk.Run | pages/overview.py:104-121 | the numbers of speeds and cumulative distances are equal and at most the number of segments |
| SegmentWalk.Kept | pages/overview.py:111-112 | the kept segments are segments of the track and none of them is a pause |
| SegmentWalk.RecordExtendsTotals | pages/overview.py:115-122 | recording one more kept segment extends its speed, running-total and sum references by that segment |
| SegmentWalk.RunIsKeptTotals | pages/overview.py:104-122 | the walk's speeds are those of the non-paused segments, its cumulative distances their running totals, its distance and time totals their sums |
| SegmentWalk.PausedSegmentAddsNothing | pages/overview.py:111-112 | appending a paused segment changes neither list nor either total |
| SegmentWalk.AllKeptIffNoPause | pages/overview.py:111-112 | every segment is kept if and only if no segment's gap exceeds the threshold |
| SegmentWalk.NoPauseKeepsAll | pages/overview.py:111-112 | with no pause the kept segments are all segments, in order |
| SegmentWalk.KeptTimeBound | pages/overview.py:111-122 | the time total is at most the threshold times the number of kept segments |
| SegmentWalk.CumulativeEndsAtTotal | pages/overview.py:120-121 | the last cumulative distance equals the distance total |
| SegmentWalk.CumulativeNonDecreasing | pages/overview.py:120-121 | with non-negative segment distances the cumulative series never decreases and the total is non-negative |
| SegmentWalk.RunLoop | pages/overview.py:104-122 | the imperative loop with `continue` computes the same lists and totals as the recursive walk |
| Track.Segments | pages/overview.py:104-109 | one segment per consecutive pair of points: none for fewer than two points, n - 1 otherwise |
| Track.SegmentAt | pages/overview.py:104-109 | segment i carries the distance from point i to point i + 1 and their timestamp difference |
| Track.SegmentsNonNegative | pages/overview.py:104-108 | segment distances are non-negative when every distance between consecutive points is |
| Track.SegmentsAppend | pages/overview.py:104-109 | adding a point adds one segment, from the old last point to the new one |
| Track.TimeDiffsTelescope | simple_overview.py:65 | the segment time gaps add up to last timestamp minus first |
| Smoothing.RollingMean | pages/overview.py:93 | the centred rolling mean has one value per sample |
| Smoothing.BackFill | pages/overview.py:93 | length kept, valid values kept, each NaN equals its successor's fill, a trailing NaN stays NaN |
| Smoothing.ForwardFill | pages/overview.py:93 | length kept, valid values kept, each NaN equals its predecessor's fill, a leading NaN stays NaN |
| Smoothing.BackFillIsNextValid | pages/overview.py:93 | each backward-filled position holds the next valid value at or after it, or NaN if there is none |
| Smoothing.ForwardFillIsPrevValid | pages/overview.py:93 | each forward-filled position holds the last valid value at or before it, or NaN if there is none |
| Smoothing.BackFillAllNaN | pages/overview.py:93 | an all-NaN series stays all NaN after the backward fill |
| Smoothing.ForwardFillAllNaN | pages/overview.py:93 | an all-NaN series stays all NaN after the forward fill |
| Smoothing.RollingMeanInner | pages/overview.py:93 | a full centred window holds the mean of the five samples around its centre |
| Smoothing.Smooth | pages/overview.py:91-94 | the smoothed series has the input's length |
| Smoothing.SmoothShortIsNaN | pages/overview.py:91-94 | with fewer than five samples every smoothed value is NaN |
| Smoothing.SmoothInner | pages/overview.py:91-94 | from five samples on, position i in 2..n-3 is the mean of samples i-2..i+2 |
| Smoothing.SmoothEdges | pages/overview.py:91-94 | positions 0 and 1 repeat position 2; positions n-2 and n-1 repeat position n-3 |
| Smoothing.SmoothWithinRange | pages/overview.py:91-94 | from five samples on, every smoothed value is finite and between the smallest and largest input |
| Floats.PyMax | pages/overview.py:126 | `max` returns an item of the list, and NaN when the list starts with NaN |
| Floats.PyMin | pages/overview.py:127 | `min` returns an item of the list, and NaN when the list starts with NaN |
| Floats.PySum | pages/overview.py:128 | `sum` is NaN as soon as any item is NaN |
| Floats.PyMean | pages/overview.py:128 | `sum(xs) / len(xs)` is NaN when any item is NaN, and otherwise times the length gives the sum |
| Floats.PyMaxOfFinite | pages/overview.py:126 | on a list without NaN, `max` is the mathematical maximum |
| Floats.PyMinOfFinite | pages/overview.py:127 | on a list without NaN, `min` is the mathematical minimum |
| Floats.PyMeanOfFinite | pages/overview.py:128 | on a list without NaN, the float mean is the mathematical mean |
| SeqMath.Max | simple_overview.py:62-67 | `max` of a non-empty list is one of its items and no item exceeds it |
| SeqMath.Min | simple_overview.py:62-67 | `min` of a non-empty list is one of its items and no item is below it |
| SeqMath.Mean | simple_overview.py:64 | the mean times the number of items is their sum |
| Floats.PySumOfFinite | pages/overview.py:128 | on a list without NaN, `sum` is the mathematical sum |
| Overview.PyMaxBound | pages/overview.py:126 | no item compares greater than a finite `max` result |
| Overview.PyMinBound | pages/overview.py:127 | no item compares less than a finite `min` result |
| Overview.SummarizeSpeeds | pages/overview.py:126-128 | an empty series gives 0 for all three; otherwise highest and lowest are items of the series, nothing compares above a finite highest or below a finite lowest, and a finite average times the length is the float sum; a series starting with NaN gives NaN for all three |
| Overview.SummarizeFinite | pages/overview.py:126-128 | without NaN the summary is maximum, minimum and mean, with lowest <= average <= highest |
| Overview.SmoothedSummary | pages/overview.py:124-128 | summary of the smoothed speeds: zeros for none, NaN for one to four, otherwise exactly the maximum, minimum and mean of the smoothed values, ordered and within the raw speed range |
| Overview.SmoothedSummaryFull | pages/overview.py:124-128 | from five speeds on every smoothed value is finite and the summary is exactly their maximum, minimum and mean, ordered and within the raw range |
| Overview.Aggregate | pages/overview.py:124-140 | the speed extremes are values of the smoothed series that no smoothed value compares above or below, the average is its float mean; the elevation extremes are elevations of the track bounding all of them; time is the walk's total; distance in km times 1000 is the metre total; no speeds give zero speed metrics |
| Overview.CalculateMetrics | pages/overview.py:96-142 | fails exactly on an empty track; otherwise speeds and distances have equal length at most points - 1, elevation extremes bound every point, zero speeds give zero speed metrics |
| Overview.CalculateMetricsTotals | pages/overview.py:96-142 | the returned speeds and cumulative distances are those of the non-paused segments; km total times 1000 and time total are their distance and time sums |
| Overview.CalculateMetricsSpeedSummary | pages/overview.py:124-128 | the speed fields are zero without kept speeds, NaN with one to four, and otherwise exactly the maximum, minimum and mean of the smoothed kept speeds, ordered and within the raw range |
| Overview.CalculateMetricsCumulative | pages/overview.py:120-121 | with non-negative distances the returned cumulative series never decreases |
| Overview.CalculateMetricsDistanceTotal | pages/overview.py:120-139 | the last cumulative distance is the reported km total times 1000, and with non-negative distances that total is non-negative |
| Overview.SummaryWithin | pages/overview.py:126-128 | a non-empty NaN-free series within [lo, hi] has as summary its maximum, minimum and mean, with lo <= lowest <= average <= highest <= hi |
| Activity.Complete | pages/overview.py:347 | the guard passes only with every setting present, and a zero weight, height or age or an empty activity or sex fails it |
| Activity.EnteredSettingsComplete | pages/overview.py:347 | a non-empty activity and sex with non-zero weight, height and age pass the guard |
| Activity.BaseMet | pages/overview.py:354-360 | the table value for Running, Cycling, Walking; 1 for anything else; always at least 1 |
| Activity.AdjustedMet | pages/overview.py:363-369 | the MET exceeds the base by one for a climb over 500 m plus one for an average over 20 km/h, so by 0 to 2 |
| Activity.EstimateEnergy | pages/overview.py:347-371 | the message exactly when a setting is missing; otherwise kcal times 3600 equals MET times weight times seconds |
| Activity.EnergyIncreasingInWeight | pages/overview.py:371 | for positive time, a heavier weight gives strictly more kcal |
| Activity.EnergyIncreasingInTime | pages/overview.py:371 | for positive weight, a longer time gives strictly more kcal |
| Activity.CyclingHourEstimate | pages/overview.py:347-371 | a complete cycling profile of 80 kg, for an hour at 25 km/h with 600 m of climbing, gets 760 kcal |
| Activity.ClassifyActivity | pages/overview.py:452-457 | Cycling iff the average is above 17, Running iff it is within 7..17, Walking iff it is below 7 or NaN |
| Activity.ClassifyMonotone | pages/overview.py:452-457 | a faster average never gives a slower activity, and the guess always has a table MET |
| TimeFormat.FloorMod | pages/overview.py:289 | Python's float modulo by a positive divisor lies in [0, divisor) |
| TimeFormat.SplitSeconds | pages/overview.py:289 | minutes and seconds lie in 0..59 and hours*3600 + minutes*60 + seconds is the floor of the total |
| TimeFormat.SplitSecondsInverse | pages/overview.py:289 | splitting a whole number of seconds built from h, m < 60, s < 60 gives back h, m, s |
| SimpleOverview.RunAll | simple_overview.py:46-60 | without a pause filter there is one speed and one cumulative distance per segment |
| SimpleOverview.RunAllIsAllSegments | simple_overview.py:46-60 | the speeds are every segment's speed, the cumulative distances the running totals of all segment distances |
| SimpleOverview.NoPauseAgreesWithOverview | simple_overview.py:46-60 | when no gap exceeds the threshold the filtered and unfiltered walks record the same speeds, distances and total |
| SimpleOverview.SimpleSummary | simple_overview.py:62-81 | the speed extremes are speeds of the list and bound it, the average is their mean, the elevation extremes are elevations and bound them, km times 1000 is the distance total, hours times 3600 the elapsed seconds |
| SimpleOverview.SimpleCalculateMetrics | simple_overview.py:41-85 | fails exactly below two points; otherwise one speed per segment, speed extremes that are returned speeds bounding every speed, an average that is their mean, elevation extremes that are elevations of the track bounding every point |
| SimpleOverview.SimpleMetricsTotals | simple_overview.py:59-81 | speeds and running totals over all segments, last total equal to km times 1000, hours times 3600 equal to the sum of all time gaps, calories 960 per hour |
| SimpleOverview.SimpleTimeIgnoresMiddle | simple_overview.py:65 | two tracks with the same first and last timestamps report the same time |

## Left out

- `haversine` (both files): floating-point trigonometry; any distance function may stand in.
- `parse_gpx` (both files): file I/O and the third-party GPX parser; a track is given as a list of points, each with an elevation and a timestamp. Points missing either are not modelled.
- `rename_gpx`: filesystem renaming driven by regular expressions.
- `load_data`: the speed normalisation for map colouring and the kilometre conversion of the cumulative distances. The normalisation calls `min(speeds)` and `max(speeds)` (pages/overview.py:150), which raise on an empty speed list, so in the application a one-point or all-paused track fails there before the zero speed summary that `Overview.CalculateMetrics` gives is ever shown; with all speeds equal it divides by zero.
- The module-level `data_cache` and all Dash/plotly layouts, callbacks, hover handling and figures, the settings page, the navigation bar, the app entry points and the browser script.
- The string formatting of the cards (`:.2f`, `:02`); `TimeFormat.SplitSeconds` returns the three integers.
- Floating-point rounding: all arithmetic is exact.
- `update_activity_dropdown` returning `None` when no file is selected: UI glue; `Activity.ClassifyActivity` models the classification only.
- Activity.EstimateEnergy: the settings are assumed to be numbers or text as the settings page writes them. The stores start as the placeholder strings `'weight_value'`, `'height_value'`, `'age_value'` and `'sex_value'` (index.py:15-18), which are truthy, and the settings callback replaces them only once weight, height and age are all entered. Until then the guard passes as soon as an activity is chosen and the multiplication at pages/overview.py:371 raises a `TypeError` instead of showing the message; the typed profile cannot hold those strings.
- SimpleOverview.RunAll: it reuses the shared loop state, so it also carries a time total that the variant's loop does not keep; the variant's metrics never read it.
