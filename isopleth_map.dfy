/** The computational core of the isopleth map (frontend/src/isoplethMap.js):
    sampling the fire-influence field on a row-major grid, memoising the contour
    bands per month, and attributing a clicked band back to fire points.
    Library calls enter as parameters: the distance-decay kernels (`Math.exp` of
    `Math.hypot`/`Math.sqrt`), d3-contour's generator and d3's `polygonContains`. */
module IsoplethMap {
  import opened Wrappers
  import opened Seqs
  import MonthKeys
  import PrepareFiresData

  type Point = (real, real)
  type Ring = seq<Point>

  /** A GeoJSON polygon: its exterior ring first, then its holes. */
  datatype Polygon = Polygon(exterior: Ring, holes: seq<Ring>)

  /** One contour band as d3-contour returns it: the threshold and a MultiPolygon. */
  datatype Band = Band(value: real, coordinates: seq<Polygon>)

  /** One entry of `fireDataPoints`: projected x and y, the fire size, and the
      name, state, county and formatted dates shown in the tooltip. */
  datatype FirePoint = FirePoint(x: real, y: real, fireSize: real, details: seq<string>)

  /** The contour thresholds. */
  const Thresholds: seq<real> := [0.1, 0.5, 5.0, 20.0, 120.0, 500.0, 1000.0, 2000.0]

  /** `Number.MAX_SAFE_INTEGER`. */
  const MaxSafeInteger: real := 9007199254740991.0

  /** Influence of a fire at offset (dx, dy): `Math.exp(-2 * Math.hypot(dx, dy))`
      when sampling, `Math.exp(-Math.sqrt(dx*dx + dy*dy))` when attributing. */
  type Kernel = (real, real) -> real

  /** `contours().size([rx, ry]).thresholds(thresholds)` applied to a grid. */
  type ContourGenerator = (seq<real>, nat, real, seq<real>) -> seq<Band>

  /** `d3.polygonContains(ring, point)`. */
  type RingContains = (Ring, Point) -> bool

  lemma ThresholdsAscending()
    ensures forall i, j :: 0 <= i < j < |Thresholds| ==> 0.0 < Thresholds[i] < Thresholds[j]
  {
  }

  // ---------------------------------------------------------------- month keys

  /** The cache key of a month: `getFullYear() + "-" + (getMonth() + 1)`, so
      January 2020 is "2020-1" (the histogram's keys use the zero-based month). */
  function YearMonth(month: PrepareFiresData.Date): (key: string)
    ensures MonthKeys.ParseMonthKey(key) == Some((month.fullYear, month.month + 1))
  {
    MonthKeys.MonthKeyRoundTrip(month.fullYear, month.month + 1);
    MonthKeys.MonthKey(month.fullYear, month.month + 1)
  }

  /** Two dates share a cache key exactly when they fall in the same month. */
  lemma YearMonthSameIffSameMonth(a: PrepareFiresData.Date, b: PrepareFiresData.Date)
    ensures YearMonth(a) == YearMonth(b) <==> a.fullYear == b.fullYear && a.month == b.month
  {
    if YearMonth(a) == YearMonth(b) {
      MonthKeys.MonthKeyInjective(a.fullYear, a.month + 1, b.fullYear, b.month + 1);
    }
  }

  // ---------------------------------------------------------------- grid sampler

  function Contribution(p: FirePoint, x: real, y: real, decay: Kernel): real
  {
    p.fireSize * decay(p.x - x, p.y - y)
  }

  /** The value the `forEach` accumulates for the sample point (x, y): the sum,
      taken left to right, of every fire's size times the decay of its distance. */
  function CellValue(points: seq<FirePoint>, x: real, y: real, decay: Kernel): real
  {
    if points == [] then 0.0
    else CellValue(points[..|points| - 1], x, y, decay) + Contribution(points[|points| - 1], x, y, decay)
  }

  /** How many rows `for (let i = 0; i < gridResolutionY; i++)` visits: the
      ceiling of a positive `gridResolutionY`, which need not be an integer. */
  function RowCount(ry: real): (rows: nat)
    ensures ry <= 0.0 ==> rows == 0
    ensures ry > 0.0 ==> (rows - 1) as real < ry <= rows as real
  {
    if ry <= 0.0 then 0 else (-((-ry).Floor)) as nat
  }

  function SampleX(width: real, rx: nat, j: nat): real
    requires rx > 0
  {
    width * (j as real / rx as real)
  }

  function SampleY(height: real, ry: real, i: nat): real
    requires ry > 0.0
  {
    height * (i as real / ry)
  }

  /** Row i of the grid: cell j samples the field at (width·j/rx, height·i/ry). */
  function Row(points: seq<FirePoint>, width: real, height: real, rx: nat, ry: real, decay: Kernel, i: nat): (row: seq<real>)
    requires ry > 0.0
    ensures |row| == rx
    ensures forall j :: 0 <= j < rx ==>
      row[j] == CellValue(points, SampleX(width, rx, j), SampleY(height, ry, i), decay)
  {
    seq(rx, j requires 0 <= j < rx => CellValue(points, SampleX(width, rx, j), SampleY(height, ry, i), decay))
  }

  /** The first `rows` rows of the grid, concatenated in row-major order. */
  function Grid(points: seq<FirePoint>, width: real, height: real, rx: nat, ry: real, decay: Kernel, rows: nat): seq<real>
    requires rows <= RowCount(ry)
  {
    if rows == 0 then []
    else Grid(points, width, height, rx, ry, decay, rows - 1) + Row(points, width, height, rx, ry, decay, rows - 1)
  }

  lemma {:induction false} GridLength(points: seq<FirePoint>, width: real, height: real, rx: nat, ry: real, decay: Kernel, rows: nat)
    requires rows <= RowCount(ry)
    ensures |Grid(points, width, height, rx, ry, decay, rows)| == rows * rx
  {
    if rows > 0 {
      GridLength(points, width, height, rx, ry, decay, rows - 1);
      assert (rows - 1) * rx + rx == rows * rx;
    }
  }

  /** The grid is row-major with rx values per row: cell (i, j) sits at i·rx + j
      and holds the field sampled at (width·j/rx, height·i/ry). */
  lemma {:induction false} GridCell(points: seq<FirePoint>, width: real, height: real, rx: nat, ry: real, decay: Kernel,
                                    rows: nat, i: nat, j: nat)
    requires rows <= RowCount(ry) && i < rows && j < rx
    ensures i * rx + j < |Grid(points, width, height, rx, ry, decay, rows)|
    ensures Grid(points, width, height, rx, ry, decay, rows)[i * rx + j]
         == CellValue(points, SampleX(width, rx, j), SampleY(height, ry, i), decay)
  {
    GridLength(points, width, height, rx, ry, decay, rows);
    GridLength(points, width, height, rx, ry, decay, rows - 1);
    var prefix := Grid(points, width, height, rx, ry, decay, rows - 1);
    if i < rows - 1 {
      GridCell(points, width, height, rx, ry, decay, rows - 1, i, j);
      assert i * rx + j < (i + 1) * rx <= (rows - 1) * rx by {
        MultiplyMonotone(i + 1, rows - 1, rx);
      }
    } else {
      assert i * rx + j == |prefix| + j;
    }
  }

  lemma MultiplyMonotone(a: nat, b: nat, c: nat)
    requires a <= b
    ensures a * c <= b * c
  {
  }

  /** With non-negative fire sizes and a non-negative kernel no cell is negative. */
  lemma {:induction false} CellValueNonNegative(points: seq<FirePoint>, x: real, y: real, decay: Kernel)
    requires forall k :: 0 <= k < |points| ==> points[k].fireSize >= 0.0
    requires forall dx, dy :: decay(dx, dy) >= 0.0
    ensures CellValue(points, x, y, decay) >= 0.0
  {
    if points != [] {
      var last := points[|points| - 1];
      CellValueNonNegative(points[..|points| - 1], x, y, decay);
      assert last.fireSize >= 0.0 && decay(last.x - x, last.y - y) >= 0.0;
      assert Contribution(last, x, y, decay) >= 0.0;
    }
  }

  lemma {:induction false} GridNonNegative(points: seq<FirePoint>, width: real, height: real, rx: nat, ry: real, decay: Kernel, rows: nat)
    requires rows <= RowCount(ry)
    requires forall k :: 0 <= k < |points| ==> points[k].fireSize >= 0.0
    requires forall dx, dy :: decay(dx, dy) >= 0.0
    ensures forall k :: 0 <= k < |Grid(points, width, height, rx, ry, decay, rows)| ==>
      Grid(points, width, height, rx, ry, decay, rows)[k] >= 0.0
  {
    if rows > 0 {
      GridNonNegative(points, width, height, rx, ry, decay, rows - 1);
      forall j | 0 <= j < rx
        ensures CellValue(points, SampleX(width, rx, j), SampleY(height, ry, rows - 1), decay) >= 0.0
      {
        CellValueNonNegative(points, SampleX(width, rx, j), SampleY(height, ry, rows - 1), decay);
      }
    }
  }

  /** The `forEach` over the fire points that accumulates one cell's value. */
  method SampleValue(points: seq<FirePoint>, x: real, y: real, decay: Kernel) returns (value: real)
    ensures value == CellValue(points, x, y, decay)
  {
    value := 0.0;
    var k := 0;
    while k < |points|
      invariant k <= |points|
      invariant value == CellValue(points[..k], x, y, decay)
    {
      var p := points[k];
      assert points[..k + 1][..k] == points[..k];
      value := value + p.fireSize * decay(p.x - x, p.y - y);
      k := k + 1;
    }
    assert points[..k] == points;
  }

  /** One pass of computeContours' inner `for` loop: pushes row i onto the grid. */
  method PushRow(grid: seq<real>, points: seq<FirePoint>, width: real, height: real, rx: nat, ry: real, decay: Kernel, i: nat)
    returns (pushed: seq<real>)
    requires ry > 0.0
    ensures pushed == grid + Row(points, width, height, rx, ry, decay, i)
  {
    ghost var row := Row(points, width, height, rx, ry, decay, i);
    pushed := grid;
    var j: nat := 0;
    while j < rx
      invariant j <= rx
      invariant pushed == grid + row[..j]
    {
      var x := width * (j as real / rx as real);
      var y := height * (i as real / ry);
      var value := SampleValue(points, x, y, decay);
      assert x == SampleX(width, rx, j) && y == SampleY(height, ry, i);
      assert value == row[j];
      PrefixStep(row, j);
      pushed := pushed + [value];
      j := j + 1;
    }
    assert row[..rx] == row;
  }

  lemma PrefixStep(s: seq<real>, j: nat)
    requires j < |s|
    ensures s[..j + 1] == s[..j] + [s[j]]
  {
  }

  /** The nested loops of computeContours that fill the grid. */
  method ComputeGrid(points: seq<FirePoint>, width: real, height: real, rx: nat, ry: real, decay: Kernel)
    returns (grid: seq<real>)
    ensures grid == Grid(points, width, height, rx, ry, decay, RowCount(ry))
  {
    grid := [];
    var i: nat := 0;
    while (i as real) < ry
      invariant i <= RowCount(ry)
      invariant grid == Grid(points, width, height, rx, ry, decay, i)
      decreases RowCount(ry) - i
    {
      grid := PushRow(grid, points, width, height, rx, ry, decay, i);
      i := i + 1;
    }
    assert ry > 0.0 ==> (RowCount(ry) - 1) as real < i as real;
  }

  // ---------------------------------------------------------------- contour cache

  /** The cache after loadAndDrawContours' preload step. The precomputed file is
      fetched only while the cache has no keys; `fetched` is what fetching and
      decoding it gives, None when either throws (the cache is then reset to `{}`). */
  function Preloaded(cache: map<string, seq<Band>>, fetched: Option<map<string, seq<Band>>>): map<string, seq<Band>>
  {
    if cache != map[] then cache
    else match fetched
      case Some(file) => file
      case None => map[]
  }

  /** The module-level variables of isoplethMap.js that the core reads and writes. */
  class IsoplethState {
    var fireDataPoints: seq<FirePoint>
    var allContours: map<string, seq<Band>>
    /** How many times the contours were computed; not in the source, kept to state memoisation. */
    ghost var computations: nat
    /** How many times the precomputed contour file was fetched; not in the source either. */
    ghost var fetches: nat

    constructor (points: seq<FirePoint>)
      ensures fireDataPoints == points && allContours == map[] && computations == 0 && fetches == 0
    {
      fireDataPoints := points;
      allContours := map[];
      computations := 0;
      fetches := 0;
    }

    /** updateIsoplethMap replaces the fire points of the displayed month. */
    method UpdateFireDataPoints(points: seq<FirePoint>)
      modifies this`fireDataPoints
      ensures fireDataPoints == points
    {
      fireDataPoints := points;
    }

    /** computeContours: sample the grid from the current fire points and hand it,
        with the fixed thresholds, to the contour generator. */
    method ComputeContours(width: real, height: real, rx: nat, ry: real, decay: Kernel, contours: ContourGenerator)
      returns (polygons: seq<Band>)
      ensures polygons == contours(Grid(fireDataPoints, width, height, rx, ry, decay, RowCount(ry)), rx, ry, Thresholds)
    {
      var grid := ComputeGrid(fireDataPoints, width, height, rx, ry, decay);
      polygons := contours(grid, rx, ry, Thresholds);
    }

    /** loadAndDrawContours: after the preload step, a month already cached is
        answered from the cache without computing; any other month is computed,
        stored under its key, and returned, and no other entry changes. */
    method LoadAndDrawContours(width: real, height: real, rx: nat, ry: real, yearMonth: string,
                               fetched: Option<map<string, seq<Band>>>, decay: Kernel, contours: ContourGenerator)
      returns (bands: seq<Band>)
      modifies this`allContours, this`computations, this`fetches
      ensures fetches == old(fetches) + if old(allContours) == map[] then 1 else 0
      ensures yearMonth in allContours && allContours[yearMonth] == bands
      ensures yearMonth in Preloaded(old(allContours), fetched) ==>
        && bands == Preloaded(old(allContours), fetched)[yearMonth]
        && allContours == Preloaded(old(allContours), fetched)
        && computations == old(computations)
      ensures yearMonth !in Preloaded(old(allContours), fetched) ==>
        && bands == contours(Grid(fireDataPoints, width, height, rx, ry, decay, RowCount(ry)), rx, ry, Thresholds)
        && allContours == Preloaded(old(allContours), fetched)[yearMonth := bands]
        && computations == old(computations) + 1
    {
      if allContours == map[] {
        fetches := fetches + 1;
        match fetched
        case Some(file) => allContours := file;
        case None => allContours := map[];
      }
      if yearMonth in allContours {
        return allContours[yearMonth];
      }
      bands := ComputeContours(width, height, rx, ry, decay, contours);
      computations := computations + 1;
      allContours := allContours[yearMonth := bands];
    }
  }

  /** Two requests for the same month in a row, from any state of the cache, give
      the same bands; the second is answered from the cache, so the contours are
      computed at most once and the file is fetched at most once. */
  method SameMonthTwice(state: IsoplethState, width: real, height: real, rx: nat, ry: real, yearMonth: string,
                        fetched1: Option<map<string, seq<Band>>>, fetched2: Option<map<string, seq<Band>>>,
                        decay: Kernel, contours: ContourGenerator)
    returns (first: seq<Band>, second: seq<Band>)
    modifies state
    ensures first == second
    ensures state.computations
         == old(state.computations) + if yearMonth in Preloaded(old(state.allContours), fetched1) then 0 else 1
    ensures state.fetches == old(state.fetches) + if old(state.allContours) == map[] then 1 else 0
  {
    first := state.LoadAndDrawContours(width, height, rx, ry, yearMonth, fetched1, decay, contours);
    second := state.LoadAndDrawContours(width, height, rx, ry, yearMonth, fetched2, decay, contours);
  }

  // ---------------------------------------------------------------- click attribution

  /** Some polygon of the band has the point inside its first ring (holes are not consulted). */
  predicate BandContains(band: Band, pt: Point, contains: RingContains)
  {
    exists c :: c in band.coordinates && contains(c.exterior, pt)
  }

  /** `contourPolygons.toReversed().find(...)` followed by `indexOf`: the largest
      index below n whose band contains the point, or -1 when there is none. */
  function LastBandContaining(bands: seq<Band>, pt: Point, contains: RingContains, n: nat): (k: int)
    requires n <= |bands|
    ensures -1 <= k < n
    ensures k >= 0 ==> BandContains(bands[k], pt, contains)
    ensures forall m :: k < m < n ==> !BandContains(bands[m], pt, contains)
  {
    if n == 0 then -1
    else if BandContains(bands[n - 1], pt, contains) then n - 1
    else LastBandContaining(bands, pt, contains, n - 1)
  }

  /** The `[low, high)` interval derived from a band index. `low` is None where
      the source reads `thresholds[bandIndex]` past the end (undefined). */
  function BandInterval(bandIndex: int): (interval: (Option<real>, real))
    requires bandIndex >= -1
    ensures bandIndex <= 0 ==> interval.0 == Some(0.0)
    ensures 0 < bandIndex < |Thresholds| ==> interval.0 == Some(Thresholds[bandIndex])
    ensures bandIndex >= |Thresholds| ==> interval.0 == None
    ensures bandIndex + 1 < |Thresholds| ==> interval.1 == Thresholds[bandIndex + 1]
    ensures bandIndex + 1 >= |Thresholds| ==> interval.1 == MaxSafeInteger
    ensures interval.0.Some? ==> 0.0 <= interval.0.value < interval.1
  {
    ThresholdsAscending();
    var low := if bandIndex > 0 then (if bandIndex < |Thresholds| then Some(Thresholds[bandIndex]) else None) else Some(0.0);
    var high := if bandIndex + 1 < |Thresholds| then Thresholds[bandIndex + 1] else MaxSafeInteger;
    (low, high)
  }

  /** A fire's estimated contribution at the click: its size times the decay of the
      click-to-fire distance. */
  function ClickContribution(p: FirePoint, click: Point, nearness: Kernel): real
  {
    p.fireSize * nearness(click.0 - p.x, click.1 - p.y)
  }

  /** The filter of highlightInfluencingDataPoints: low/n <= contribution < high/n,
      with n the number of fire points. A comparison with an undefined `low` is false.
      n is never 0 for a point that is being tested; the guard only keeps the
      division well defined. */
  predicate Influencing(p: FirePoint, click: Point, interval: (Option<real>, real), n: nat, nearness: Kernel)
  {
    match interval.0
    case None => false
    case Some(low) =>
      n > 0
      && ClickContribution(p, click, nearness) >= low / n as real
      && ClickContribution(p, click, nearness) < interval.1 / n as real
  }

  /** The band picked for a click at `click`, scaled into grid units. */
  function ClickedBandIndex(bands: seq<Band>, click: Point, scaleFactor: real, contains: RingContains): int
    requires scaleFactor != 0.0
  {
    LastBandContaining(bands, (click.0 / scaleFactor, click.1 / scaleFactor), contains, |bands|)
  }

  /** highlightInfluencingDataPoints: the fire points whose contribution falls in the
      clicked band's interval, as an order-preserving subsequence of the points in
      which every kept point keeps its multiplicity and every other is dropped. */
  function HighlightInfluencingDataPoints(points: seq<FirePoint>, bands: seq<Band>, click: Point, scaleFactor: real,
                                          contains: RingContains, nearness: Kernel): (influencing: seq<FirePoint>)
    requires scaleFactor != 0.0
    ensures IsSubsequence(influencing, points)
    ensures forall p :: (multiset(influencing)[p] ==
                          if Influencing(p, click, BandInterval(ClickedBandIndex(bands, click, scaleFactor, contains)), |points|, nearness)
                          then multiset(points)[p] else 0)
  {
    var interval := BandInterval(ClickedBandIndex(bands, click, scaleFactor, contains));
    var keep := (p: FirePoint) => Influencing(p, click, interval, |points|, nearness);
    FilterIsSubsequence(points, keep);
    forall p ensures multiset(Filter(points, keep))[p] == if keep(p) then multiset(points)[p] else 0 {
      FilterMultiplicity(points, keep, p);
    }
    Filter(points, keep)
  }

  /** A click outside every band does not give an empty answer: it selects the
      points whose contribution lies in [0, thresholds[0]/n). */
  lemma ClickOutsideEveryBand(points: seq<FirePoint>, bands: seq<Band>, click: Point, scaleFactor: real,
                              contains: RingContains, nearness: Kernel)
    requires scaleFactor != 0.0
    requires forall k :: 0 <= k < |bands| ==> !BandContains(bands[k], (click.0 / scaleFactor, click.1 / scaleFactor), contains)
    ensures forall p :: p in points ==>
      (p in HighlightInfluencingDataPoints(points, bands, click, scaleFactor, contains, nearness) <==>
        0.0 <= ClickContribution(p, click, nearness) < Thresholds[0] / |points| as real)
  {
    var r := HighlightInfluencingDataPoints(points, bands, click, scaleFactor, contains, nearness);
    var index := ClickedBandIndex(bands, click, scaleFactor, contains);
    assert index == -1;
    var interval := BandInterval(index);
    assert interval == (Some(0.0), Thresholds[0]);
    forall p | p in points
      ensures p in r <==> 0.0 <= ClickContribution(p, click, nearness) < Thresholds[0] / |points| as real
    {
      assert multiset(r)[p] == if Influencing(p, click, interval, |points|, nearness) then multiset(points)[p] else 0;
      LowestBandInterval(p, click, |points|, nearness);
    }
  }

  /** Membership in the interval [0, thresholds[0]) of the lowest band, for a non-empty set of points. */
  lemma LowestBandInterval(p: FirePoint, click: Point, n: nat, nearness: Kernel)
    requires n > 0
    ensures Influencing(p, click, (Some(0.0), Thresholds[0]), n, nearness)
        <==> 0.0 <= ClickContribution(p, click, nearness) < Thresholds[0] / n as real
  {
    assert 0.0 / n as real == 0.0;
  }
}
