# Wildfire dashboard core, modelled in Dafny

This project models the computational core of a wildfire dashboard's front end. It covers four source files.

- **Record preparation** (`frontend/src/prepareFiresData.js`): module `PrepareFiresData`.
  - `cleanFiresData` drops records without both coordinates. It then parses the discovery and containment dates of the records it keeps.
  - `filterPerYear` keeps the records discovered in a given year.
  - Both filters are `Array.prototype.filter`, modelled once in module `Seqs`. `Seqs` proves that a filter keeps order, keeps the multiplicity of every kept record and drops every other record.
- **Histogram month bookkeeping** (`frontend/src/histTimeline.js`): module `HistTimeline`.
  - `distinctDates` is the insertion-ordered set of `"<year>-<month>"` keys. Here the month is zero-based.
  - `numBins` is a quarter of that count, rounded up.
- **Month keys** (module `MonthKeys`). The isopleth map and the histogram both build month keys by string concatenation.
  - The module writes JavaScript's decimal rendering of integers out in full.
  - It proves that every key parses back to its year and month. Two different months therefore never share a key.
- **Isopleth map** (`frontend/src/isoplethMap.js`): module `IsoplethMap`.
  - The fixed contour thresholds.
  - The grid loops of `computeContours`, proved against a row-major specification of the sampled field.
  - The per-month contour cache of `loadAndDrawContours`, as a class over the module-level variables `fireDataPoints` and `allContours`.
  - `highlightInfluencingDataPoints`, which maps a click back to the fire points whose estimated contribution lies in the clicked band's threshold interval divided by the number of fire points.
- **Spiral heatmap** (`frontend/src/spiralHeatmap.js`): module `SpiralHeatmap`.
  - The chart closure's options, modelled as a class. Its getter/setter accessors chain as in the source.
  - The `arcLabelsArray` loop.
  - `updatePathData`, which writes every datum's arc vertices, mid points, Bézier control points, arc number and coil number in place into an array.
  - Lemmas about the layout: how datum i decomposes into coil and position, the arc angles, arcs abutting and having constant thickness, the curves passing through the mid points, and the spiral fitting inside the radius.

Library calls enter as parameters: the distance-decay kernels (`Math.exp` of a distance), d3-contour's generator, d3's `polygonContains`, d3's `timeParse`, `Math.sin` and `Math.cos`. Numbers are exact reals, except counts and indices such as `arcsPerCoil`, which are integers.

## Model

| member | source | states |
|---|---|---|
| PrepareFiresData.HasCoordinates | frontend/src/prepareFiresData.js:11-13 | a record is kept when neither LONGITUDE nor LATITUDE is undefined; a null coordinate passes |
| Seqs.Filter | frontend/src/prepareFiresData.js:11-13 | the filtered list is no longer than the input; every kept element is in the input and satisfies the predicate; every input element that satisfies it is kept |
| Seqs.FilterIsSubsequence | frontend/src/prepareFiresData.js:11-13 | a filter keeps the surviving records in their original relative order |
| Seqs.FilterMultiplicity | frontend/src/prepareFiresData.js:11-13 | each value occurs in the filtered list exactly as often as in the input when it satisfies the predicate, and not at all otherwise |
| Seqs.FilterLength | frontend/src/prepareFiresData.js:11-13 | the filtered list has one entry per input element that satisfies the predicate |
| Seqs.FilterIdempotent | frontend/src/prepareFiresData.js:26-31 | filtering an already filtered list by the same predicate changes nothing |
| PrepareFiresData.ParseDates | frontend/src/prepareFiresData.js:18-21 | DISCOVERY_DATE and CONT_DATE become the parser's result on their previous values (absent reads as undefined); every other field is unchanged; the coordinate test is unaffected |
| PrepareFiresData.CleanFiresData | frontend/src/prepareFiresData.js:9-24 | the result has one record per input record with both coordinates not undefined, in order; each is that record with its two dates parsed; every result record still has both coordinates |
| PrepareFiresData.FilterPerYear | frontend/src/prepareFiresData.js:26-31 | the result is an order-preserving subsequence of the input holding exactly the records discovered in the year, each with its original multiplicity |
| PrepareFiresData.FilterPerYearIdempotent | frontend/src/prepareFiresData.js:26-31 | filtering the year's records by the same year again returns them unchanged |
| MonthKeys.MonthKey | frontend/src/histTimeline.js:20 | the key of a year and month number: the year's decimal rendering, a dash, the month's; the same concatenation as isoplethMap.js lines 196-199 and 269-270 |
| MonthKeys.NatToString | frontend/src/histTimeline.js:20 | the decimal rendering of a number is a non-empty string of digits |
| MonthKeys.ParseNatRoundTrip | frontend/src/histTimeline.js:20 | reading the decimal rendering of a natural number gives the number back |
| MonthKeys.ParseIntRoundTrip | frontend/src/histTimeline.js:20 | reading the rendering of an integer, with its minus sign, gives the integer back |
| MonthKeys.MonthKeyRoundTrip | frontend/src/histTimeline.js:20 | a year-dash-month key parses back to its year and month, negative years included |
| MonthKeys.MonthKeyInjective | frontend/src/isoplethMap.js:196-199 | two keys are equal only if the years and the month numbers are equal |
| HistTimeline.DateKey | frontend/src/histTimeline.js:17-21 | a record's key is its discovery year, a dash and its zero-based month, and it parses back to that year and month |
| HistTimeline.Keys | frontend/src/histTimeline.js:17-21 | one key per record, in order, each built from that record's discovery year and zero-based month |
| HistTimeline.Distinct | frontend/src/histTimeline.js:15-23 | the result of `Array.from(new Set(...))` has no duplicates and holds exactly the values of the input |
| HistTimeline.DistinctDates | frontend/src/histTimeline.js:15-23 | the distinct keys of the records' discovery months, in order of first appearance |
| HistTimeline.FirstIndex | frontend/src/histTimeline.js:15-23 | the index found holds the value and no earlier index does |
| HistTimeline.DistinctFirstOccurrenceOrder | frontend/src/histTimeline.js:15-23 | the distinct values are listed in the order of their first occurrence in the input, as a JavaScript Set iterates them |
| HistTimeline.DistinctDatesComplete | frontend/src/histTimeline.js:15-23 | distinctDates lists every record's key exactly once and lists no key that no record has |
| HistTimeline.SameKeyIffSameMonth | frontend/src/histTimeline.js:17-21 | two records share a key if and only if they were discovered in the same month of the same year |
| HistTimeline.NumBins | frontend/src/histTimeline.js:25 | the bin count is the least number of bins of four that covers all distinct months |
| HistTimeline.NumBinsZeroIffNoData | frontend/src/histTimeline.js:15-25 | there are no bins if and only if there are no records |
| IsoplethMap.ThresholdsAscending | frontend/src/isoplethMap.js:69 | the contour thresholds are positive and strictly increasing |
| IsoplethMap.YearMonth | frontend/src/isoplethMap.js:269-270 | the cache key of a month uses the one-based month, and it parses back to the year and that month |
| IsoplethMap.YearMonthSameIffSameMonth | frontend/src/isoplethMap.js:269-270 | two months share a cache key if and only if their years and months agree, so the cache never mixes months |
| IsoplethMap.RowCount | frontend/src/isoplethMap.js:453 | the row loop runs the ceiling of a positive, possibly fractional, gridResolutionY times and never for a non-positive one |
| IsoplethMap.CellValue | frontend/src/isoplethMap.js:459-465 | a cell's value is the sum, in the points' order, of each fire's size times the kernel of its offset from the sample point |
| IsoplethMap.Row | frontend/src/isoplethMap.js:455-467 | row i has gridResolutionX cells; cell j is the field sampled at (width·j/rx, height·i/ry) |
| IsoplethMap.Grid | frontend/src/isoplethMap.js:453-468 | the first `rows` rows of the field, concatenated in row-major order |
| IsoplethMap.GridLength | frontend/src/isoplethMap.js:453-468 | the grid has rows·gridResolutionX values |
| IsoplethMap.GridCell | frontend/src/isoplethMap.js:453-468 | the grid is row-major: cell (i, j) sits at index i·rx + j and holds the field sampled at that row and column |
| IsoplethMap.CellValueNonNegative | frontend/src/isoplethMap.js:459-465 | with non-negative fire sizes and a non-negative kernel a cell's value is not negative |
| IsoplethMap.GridNonNegative | frontend/src/isoplethMap.js:453-468 | with non-negative fire sizes and a non-negative kernel no grid value is negative |
| IsoplethMap.SampleValue | frontend/src/isoplethMap.js:459-465 | the `forEach` accumulates the sum, left to right, of each fire's size times the decay of its offset from the sample point |
| IsoplethMap.PushRow | frontend/src/isoplethMap.js:455-467 | one pass of the column loop appends row i of the field to the grid |
| IsoplethMap.ComputeGrid | frontend/src/isoplethMap.js:451-468 | the nested loops produce exactly the row-major grid specification |
| IsoplethMap.Preloaded | frontend/src/isoplethMap.js:409-417 | a non-empty cache is kept; an empty one becomes the decoded file, or stays empty when fetching or decoding throws |
| IsoplethMap.IsoplethState.constructor | frontend/src/isoplethMap.js:23-29 | the contour cache starts empty |
| IsoplethMap.IsoplethState.UpdateFireDataPoints | frontend/src/isoplethMap.js:240-261 | updateIsoplethMap replaces the month's fire points |
| IsoplethMap.IsoplethState.ComputeContours | frontend/src/isoplethMap.js:444-476 | the contours are the generator applied to the sampled grid of the current fire points, its size and the fixed thresholds |
| IsoplethMap.IsoplethState.LoadAndDrawContours | frontend/src/isoplethMap.js:402-442 | the file is fetched exactly when the cache is empty; an empty cache is then loaded from it, or reset to empty when the fetch fails; a cached month is answered from the cache with no computation; any other month is computed once, stored under its key and returned; no other entry changes |
| IsoplethMap.SameMonthTwice | frontend/src/isoplethMap.js:402-442 | from any state of the cache, asking twice in a row for the same month returns the same bands; the contours are computed at most once, only when the month was not already cached, and the file is fetched at most once |
| IsoplethMap.BandContains | frontend/src/isoplethMap.js:493-495 | a band contains the point when some polygon's first ring contains it (`coordinates.some` over `c[0]`) |
| IsoplethMap.ClickedBandIndex | frontend/src/isoplethMap.js:489-497 | the band index of a click: the click divided by scaleFactor, then the last band containing it, or −1 |
| IsoplethMap.LastBandContaining | frontend/src/isoplethMap.js:489-497 | the band found is the highest-index band containing the point, or -1 when no band contains it |
| IsoplethMap.BandInterval | frontend/src/isoplethMap.js:498-502 | the interval is [thresholds[i], thresholds[i+1]) with 0 as the bottom for index 0 or -1, MAX_SAFE_INTEGER as the top past the last threshold, and an undefined bottom past the end; a defined bottom is below the top |
| IsoplethMap.ClickContribution | frontend/src/isoplethMap.js:505-507 | a fire's estimated contribution at the click: its size times the kernel of the click-to-fire offset |
| IsoplethMap.Influencing | frontend/src/isoplethMap.js:503-514 | a fire is kept when low/n ≤ contribution < high/n for the band's interval and the number n of fire points; an undefined low keeps nothing |
| IsoplethMap.HighlightInfluencingDataPoints | frontend/src/isoplethMap.js:488-516 | the result keeps, in order and with multiplicity, exactly the fire points whose contribution divided by the number of points lies in the clicked band's interval |
| IsoplethMap.ClickOutsideEveryBand | frontend/src/isoplethMap.js:497-514 | a click outside every band selects exactly the points whose normalised contribution lies in [0, thresholds[0]) |
| IsoplethMap.LowestBandInterval | frontend/src/isoplethMap.js:503-514 | the filter with the lowest band's interval is the test 0 ≤ contribution < thresholds[0]/n |
| SpiralHeatmap.Shape | frontend/src/spiralHeatmap.js:303-342 | datum i's coil (i div arcsPerCoil), position on it, start, end and middle angles, and the inner and outer radii at those three angles, with the hole radius, coil width and padding of lines 303-307 |
| SpiralHeatmap.X | frontend/src/spiralHeatmap.js:362-368 | the x coordinate of a polar point, measured clockwise from twelve o'clock and shifted by startAngle |
| SpiralHeatmap.Y | frontend/src/spiralHeatmap.js:370-376 | the y coordinate of the same polar point |
| SpiralHeatmap.Annotate | frontend/src/spiralHeatmap.js:325-356 | the eight vertices, the two mid points, the two Bézier control points, the arc number and the coil number written into datum i |
| SpiralHeatmap.CoilWidth | frontend/src/spiralHeatmap.js:307 | the radius left after the hole, divided by coils + 1 |
| SpiralHeatmap.Coils | frontend/src/spiralHeatmap.js:306 | the coil count is the least number of coils of arcsPerCoil arcs that holds all data |
| SpiralHeatmap.CoilAndArcNumbers | frontend/src/spiralHeatmap.js:310-311 | datum i is written with coil number i div arcsPerCoil and arc number i mod arcsPerCoil; its coil is below the coil count |
| SpiralHeatmap.AnglesWithinOneTurn | frontend/src/spiralHeatmap.js:312-336 | an arc spans 360/arcsPerCoil degrees, its middle angle lies halfway, and both ends lie within one turn |
| SpiralHeatmap.ConsecutiveArcsAbut | frontend/src/spiralHeatmap.js:314-322 | where datum i's inner and outer edges end, datum i+1's start |
| SpiralHeatmap.ArcThickness | frontend/src/spiralHeatmap.js:314-342 | every arc is coilWidth·(1 − coilPadding) thick at its start, middle and end |
| SpiralHeatmap.CurvesPassThroughMidPoints | frontend/src/spiralHeatmap.js:344-353 | each control point makes the quadratic Bézier curve between the arc's corners pass through the mid point at t = ½ |
| SpiralHeatmap.CoilWidthFills | frontend/src/spiralHeatmap.js:303-307 | the hole plus coils + 1 coil widths make up exactly the radius |
| SpiralHeatmap.EdgeInRing | frontend/src/spiralHeatmap.js:313-322 | an arc whose inner edge is at most the coil count of coil widths out lies between the hole and the radius |
| SpiralHeatmap.SpiralFitsInRadius | frontend/src/spiralHeatmap.js:302-342 | with a proportion and padding between 0 and 1, every arc lies between the hole and the chart radius |
| SpiralHeatmap.SpiralHeatmapChart.constructor | frontend/src/spiralHeatmap.js:133-145 | a new chart has the given radius and the default options |
| SpiralHeatmap.SpiralHeatmapChart.ArcLabels | frontend/src/spiralHeatmap.js:152-156 | the arc labels are the positions 0 … arcsPerCoil − 1 in order, none when arcsPerCoil is not positive |
| SpiralHeatmap.SpiralHeatmapChart.UpdatePathData | frontend/src/spiralHeatmap.js:302-360 | every datum of the array keeps its own fields and gets the layout `Annotate` gives its index; the same array is returned (the `forEach` body is the helper method `Annotated`) |
| SpiralHeatmap.SpiralHeatmapChart.Radius | frontend/src/spiralHeatmap.js:383-387 | without an argument returns the radius unchanged; with one sets it and returns the chart |
| SpiralHeatmap.SpiralHeatmapChart.HoleRadiusProportion | frontend/src/spiralHeatmap.js:389-393 | getter or setter-returning-the-chart of holeRadiusProportion |
| SpiralHeatmap.SpiralHeatmapChart.ArcsPerCoil | frontend/src/spiralHeatmap.js:395-399 | getter or setter-returning-the-chart of arcsPerCoil |
| SpiralHeatmap.SpiralHeatmapChart.CoilPadding | frontend/src/spiralHeatmap.js:401-405 | getter or setter-returning-the-chart of coilPadding |
| SpiralHeatmap.SpiralHeatmapChart.ArcLabel | frontend/src/spiralHeatmap.js:407-411 | getter or setter-returning-the-chart of arcLabel |
| SpiralHeatmap.SpiralHeatmapChart.CoilLabel | frontend/src/spiralHeatmap.js:413-417 | getter or setter-returning-the-chart of coilLabel |
| SpiralHeatmap.SpiralHeatmapChart.StartAngle | frontend/src/spiralHeatmap.js:419-423 | getter or setter-returning-the-chart of startAngle |
| SpiralHeatmap.ConfiguredOptions | frontend/src/spiralHeatmap.js:77-83 | after the chained setters of the chart's creation each getter returns the value last set, and startAngle keeps its default |

## Left out

- Rendering, the DOM, tooltips, zoom, colour scales and d3 selections are not modelled. Only the values they consume are.
- Library calls are parameters and are not modelled further:
  - d3-contour's marching-squares generator.
  - d3's `polygonContains`.
  - d3's `timeParse`.
  - The map projection.
  - `Math.exp`, `Math.hypot`, `Math.sqrt`, `Math.sin` and `Math.cos`.
- The `fetch` of the precomputed contour file and its JSON decoding are one parameter: the decoded map, or None when either throws. `saveContoursToFile` and console logging are left out.
- The projection of each fire entry in `updateIsoplethMap` and its tooltip date formatting are left out. The fire points arrive already projected.
- Asynchrony is left out. `loadAndDrawContours` runs to completion, and interleaved calls are not modelled.
- IsoplethMap.IsoplethState.LoadAndDrawContours: the source tests the cached entry for truthiness. The model treats every present key as a hit, because a cached band list is an array and so is always truthy. Entries in the file that are null are not modelled.
- IsoplethMap.LastBandContaining: the source finds the band with `indexOf` on object identity. The model returns the index it found. The two agree whenever the bands are distinct objects, which d3-contour guarantees.
- PrepareFiresData.CleanFiresData: the source rewrites the date fields of the caller's own record objects. The model returns new records, so the aliasing of the input objects is not captured.
- PrepareFiresData.FilterPerYear and HistTimeline.DistinctDates require every record to have a parsed discovery date. On any other record the source throws a TypeError, and that error path is not modelled.
- SpiralHeatmap.SpiralHeatmapChart.UpdatePathData: requires a positive whole arcsPerCoil, the value every caller passes (12). A zero count divides by zero. The setter also accepts negative and fractional counts, which give finite layouts unless coils + 1 is zero. The model does not cover those layouts: arcsPerCoil is an integer here, and the layout lemmas assume it is positive. The array holds datum values, not shared objects: in the source one object at two indices would end up with the later index's layout at both, and the model does not capture that aliasing (d3.nest yields distinct objects, so no caller relies on it).
- Floating point is modelled as exact reals: rounding, NaN and Infinity are not represented.
- IsoplethMap.ClickOutsideEveryBand: one might expect a click outside every band to select no fire points. The code takes bandIndex −1 and uses the interval [0, thresholds[0]), so it selects the faintest contributors. The model follows the code.
