/** The layout arithmetic of the spiral heatmap (frontend/src/spiralHeatmap.js):
    the chart's option accessors, the arc-label indices, and `updatePathData`,
    which annotates every datum in place with the vertices and Bézier control
    points of its arc. Data run outwards along the spiral, `arcsPerCoil` arcs per
    turn. `Math.sin`/`Math.cos` are left abstract and enter as a parameter. */
module SpiralHeatmap {
  import opened Wrappers

  /** Degrees-to-radians factor as written in the source. */
  const Radians: real := 0.0174532925

  const MonthNames: seq<string> := ["Jan", "Feb", "Mar", "Apr", "May", "Jun", "Jul", "Aug", "Sep", "Oct", "Nov", "Dec"]

  /** `Math.sin` and `Math.cos`. */
  datatype Trig = Trig(sin: real -> real, cos: real -> real)

  /** An arc or coil label option: a field name, or (the default arc label) a list of names. */
  datatype Label = Field(name: string) | Names(names: seq<string>)

  /** The options the layout reads. */
  datatype Options = Options(radius: real, holeRadiusProportion: real, arcsPerCoil: int, coilPadding: real, startAngle: real)

  /** The properties updatePathData writes into a datum. */
  datatype Annotation = Annotation(
    x1: real, y1: real, x2: real, y2: real, x3: real, y3: real, x4: real, y4: real,
    mid1x: real, mid1y: real, mid2x: real, mid2y: real,
    controlPoint1x: real, controlPoint1y: real, controlPoint2x: real, controlPoint2y: real,
    arcNumber: int, coilNumber: int)

  /** A datum of the chart: its own fields, and the annotation once the layout ran. */
  datatype Datum<T> = Datum(fields: T, annotation: Option<Annotation>)

  /** `Math.ceil(dataLength / arcsPerCoil)`: the number of coils. */
  function Coils(dataLength: nat, arcsPerCoil: int): (coils: nat)
    requires arcsPerCoil > 0
    ensures arcsPerCoil * coils >= dataLength
    ensures arcsPerCoil * (coils - 1) < dataLength
  {
    var q := (dataLength + arcsPerCoil - 1) / arcsPerCoil;
    assert arcsPerCoil * q + (dataLength + arcsPerCoil - 1) % arcsPerCoil == dataLength + arcsPerCoil - 1;
    q
  }

  /** The radial width of one coil: what remains after the hole, over coils + 1. */
  function CoilWidth(o: Options, dataLength: nat): real
    requires o.arcsPerCoil > 0
  {
    o.radius * (1.0 - o.holeRadiusProportion) / (Coils(dataLength, o.arcsPerCoil) + 1) as real
  }

  /** The inner edge `turns` coil widths out from the hole: holeRadius + turns·coilWidth. */
  function InnerEdge(o: Options, dataLength: nat, turns: real): real
    requires o.arcsPerCoil > 0
  {
    o.radius * o.holeRadiusProportion + turns * CoilWidth(o, dataLength)
  }

  /** The thickness of every arc: coilWidth·(1 − coilPadding). */
  function Band(o: Options, dataLength: nat): real
    requires o.arcsPerCoil > 0
  {
    CoilWidth(o, dataLength) * (1.0 - o.coilPadding)
  }

  /** The angles and radii updatePathData computes for datum i before the trigonometry. */
  datatype ArcShape = ArcShape(
    coil: int, position: int,
    startAngle: real, endAngle: real, midAngle: real,
    startInnerRadius: real, startOuterRadius: real,
    endInnerRadius: real, endOuterRadius: real,
    midInnerRadius: real, midOuterRadius: real)

  function Shape(o: Options, dataLength: nat, i: nat): ArcShape
    requires o.arcsPerCoil > 0
  {
    var arcAngle := 360.0 / o.arcsPerCoil as real;
    var arcs := o.arcsPerCoil as real;
    var band := Band(o, dataLength);
    var coil := i / o.arcsPerCoil;
    var position := i - coil * o.arcsPerCoil;
    var startAngle := position as real * arcAngle;
    ArcShape(
      coil, position,
      startAngle, (position + 1) as real * arcAngle, startAngle + arcAngle / 2.0,
      InnerEdge(o, dataLength, i as real / arcs),
      InnerEdge(o, dataLength, i as real / arcs) + band,
      InnerEdge(o, dataLength, (i + 1) as real / arcs),
      InnerEdge(o, dataLength, (i + 1) as real / arcs) + band,
      InnerEdge(o, dataLength, (i as real + 0.5) / arcs),
      InnerEdge(o, dataLength, (i as real + 0.5) / arcs) + band)
  }

  /** `x(angle, radius)`: clockwise from twelve o'clock, shifted by the chart's startAngle. */
  function X(angle: real, radius: real, startAngle: real, trig: Trig): real
  {
    var a := 360.0 - angle;
    var a' := a + 180.0 - startAngle;
    radius * trig.sin(a' * Radians)
  }

  function Y(angle: real, radius: real, startAngle: real, trig: Trig): real
  {
    var a := 360.0 - angle;
    var a' := a + 180.0 - startAngle;
    radius * trig.cos(a' * Radians)
  }

  /** The annotation updatePathData writes into datum i of `dataLength`. */
  function Annotate(o: Options, trig: Trig, dataLength: nat, i: nat): Annotation
    requires o.arcsPerCoil > 0
  {
    var s := Shape(o, dataLength, i);
    var x1 := X(s.startAngle, s.startInnerRadius, o.startAngle, trig);
    var y1 := Y(s.startAngle, s.startInnerRadius, o.startAngle, trig);
    var x2 := X(s.endAngle, s.endInnerRadius, o.startAngle, trig);
    var y2 := Y(s.endAngle, s.endInnerRadius, o.startAngle, trig);
    var x3 := X(s.endAngle, s.endOuterRadius, o.startAngle, trig);
    var y3 := Y(s.endAngle, s.endOuterRadius, o.startAngle, trig);
    var x4 := X(s.startAngle, s.startOuterRadius, o.startAngle, trig);
    var y4 := Y(s.startAngle, s.startOuterRadius, o.startAngle, trig);
    var mid1x := X(s.midAngle, s.midInnerRadius, o.startAngle, trig);
    var mid1y := Y(s.midAngle, s.midInnerRadius, o.startAngle, trig);
    var mid2x := X(s.midAngle, s.midOuterRadius, o.startAngle, trig);
    var mid2y := Y(s.midAngle, s.midOuterRadius, o.startAngle, trig);
    Annotation(
      x1, y1, x2, y2, x3, y3, x4, y4,
      mid1x, mid1y, mid2x, mid2y,
      (mid1x - 0.25 * x1 - 0.25 * x2) / 0.5,
      (mid1y - 0.25 * y1 - 0.25 * y2) / 0.5,
      (mid2x - 0.25 * x3 - 0.25 * x4) / 0.5,
      (mid2y - 0.25 * y3 - 0.25 * y4) / 0.5,
      s.position, s.coil)
  }

  /** Datum i lies on coil i div arcsPerCoil at position i mod arcsPerCoil, and
      every coil number is below the coil count. */
  lemma CoilAndArcNumbers(o: Options, dataLength: nat, trig: Trig, i: nat)
    requires o.arcsPerCoil > 0 && i < dataLength
    ensures var a := Annotate(o, trig, dataLength, i);
      && a.coilNumber * o.arcsPerCoil + a.arcNumber == i
      && 0 <= a.arcNumber < o.arcsPerCoil
      && 0 <= a.coilNumber < Coils(dataLength, o.arcsPerCoil)
  {
    AnnotationNumbers(o, trig, dataLength, i);
    CoilOfDatum(i, o.arcsPerCoil, dataLength);
  }

  /** The annotation's numbers are the shape's coil and position. */
  lemma AnnotationNumbers(o: Options, trig: Trig, dataLength: nat, i: nat)
    requires o.arcsPerCoil > 0
    ensures Annotate(o, trig, dataLength, i).coilNumber == i / o.arcsPerCoil
    ensures Annotate(o, trig, dataLength, i).arcNumber == i - (i / o.arcsPerCoil) * o.arcsPerCoil
  {
  }

  /** i div n is a coil number below the coil count, and i mod n a position on it. */
  lemma CoilOfDatum(i: nat, apc: int, dataLength: nat)
    requires apc > 0 && i < dataLength
    ensures 0 <= i - (i / apc) * apc < apc
    ensures 0 <= i / apc < Coils(dataLength, apc)
  {
    var coils := Coils(dataLength, apc);
    var coil := i / apc;
    assert coil * apc + i % apc == i;
    if coil >= coils {
      assert apc * coil >= apc * coils by { MultiplyMonotoneInt(coils, coil, apc); }
      assert false;
    }
  }

  lemma MultiplyMonotoneInt(a: int, b: int, c: nat)
    requires a <= b
    ensures c * a <= c * b
  {
  }

  /** An arc spans arcAngle = 360/arcsPerCoil degrees from startAngle, and both of
      its angles lie within one turn. */
  lemma {:induction false} AnglesWithinOneTurn(o: Options, dataLength: nat, i: nat)
    requires o.arcsPerCoil > 0
    ensures var s := Shape(o, dataLength, i);
      && s.endAngle == s.startAngle + 360.0 / o.arcsPerCoil as real
      && s.midAngle == s.startAngle + 180.0 / o.arcsPerCoil as real
      && 0.0 <= s.startAngle < s.endAngle <= 360.0
  {
    var s := Shape(o, dataLength, i);
    PositionInCoil(i, o.arcsPerCoil);
    AngleBounds(s.position, o.arcsPerCoil);
  }

  lemma PositionInCoil(i: nat, arcsPerCoil: int)
    requires arcsPerCoil > 0
    ensures 0 <= i - (i / arcsPerCoil) * arcsPerCoil < arcsPerCoil
  {
  }

  /** Position p of n arcs spans [p·360/n, (p+1)·360/n], inside one turn. */
  lemma AngleBounds(p: int, n: int)
    requires 0 <= p < n
    ensures var arcAngle := 360.0 / n as real;
      && (p + 1) as real * arcAngle == p as real * arcAngle + arcAngle
      && arcAngle / 2.0 == 180.0 / n as real
      && 0.0 <= p as real * arcAngle < (p + 1) as real * arcAngle <= 360.0
  {
    var arcAngle := 360.0 / n as real;
    assert arcAngle > 0.0;
    RealMultiplyMonotone(0.0, p as real, arcAngle);
    RealMultiplyMonotone((p + 1) as real, n as real, arcAngle);
    assert n as real * arcAngle == 360.0;
  }

  lemma RealMultiplyMonotone(a: real, b: real, c: real)
    requires a <= b && c >= 0.0
    ensures a * c <= b * c && c * a <= c * b
  {
  }

  /** Consecutive arcs abut: where datum i ends, datum i + 1 starts, on both edges. */
  lemma ConsecutiveArcsAbut(o: Options, dataLength: nat, i: nat)
    requires o.arcsPerCoil > 0
    ensures Shape(o, dataLength, i).endInnerRadius == Shape(o, dataLength, i + 1).startInnerRadius
    ensures Shape(o, dataLength, i).endOuterRadius == Shape(o, dataLength, i + 1).startOuterRadius
  {
  }

  /** Every arc is coilWidth·(1 − coilPadding) thick, at its start, middle and end. */
  lemma ArcThickness(o: Options, dataLength: nat, i: nat)
    requires o.arcsPerCoil > 0
    ensures var s := Shape(o, dataLength, i);
      var thickness := CoilWidth(o, dataLength) * (1.0 - o.coilPadding);
      && s.startOuterRadius - s.startInnerRadius == thickness
      && s.endOuterRadius - s.endInnerRadius == thickness
      && s.midOuterRadius - s.midInnerRadius == thickness
  {
  }

  /** The point at parameter t of the quadratic Bézier curve from p0 to p2 with control point c. */
  function Bezier(p0: real, c: real, p2: real, t: real): real
  {
    (1.0 - t) * (1.0 - t) * p0 + 2.0 * (1.0 - t) * t * c + t * t * p2
  }

  /** Each control point is chosen so that the inner and outer curves pass, at
      t = 1/2, through the mid points computed at the middle angle. */
  lemma {:induction false} CurvesPassThroughMidPoints(o: Options, trig: Trig, dataLength: nat, i: nat)
    requires o.arcsPerCoil > 0
    ensures var a := Annotate(o, trig, dataLength, i);
      && Bezier(a.x1, a.controlPoint1x, a.x2, 0.5) == a.mid1x
      && Bezier(a.y1, a.controlPoint1y, a.y2, 0.5) == a.mid1y
      && Bezier(a.x3, a.controlPoint2x, a.x4, 0.5) == a.mid2x
      && Bezier(a.y3, a.controlPoint2y, a.y4, 0.5) == a.mid2y
  {
    var a := Annotate(o, trig, dataLength, i);
    MidControl(a.x1, a.x2, a.mid1x);
    MidControl(a.y1, a.y2, a.mid1y);
    MidControl(a.x3, a.x4, a.mid2x);
    MidControl(a.y3, a.y4, a.mid2y);
  }

  lemma MidControl(p0: real, p2: real, mid: real)
    ensures Bezier(p0, (mid - 0.25 * p0 - 0.25 * p2) / 0.5, p2, 0.5) == mid
  {
  }

  /** With coilPadding between 0 and 1, every arc of the data lies in the ring
      between the hole and the chart radius: dividing by coils + 1 leaves room for
      the outward drift of the last coil. */
  lemma {:induction false} SpiralFitsInRadius(o: Options, dataLength: nat, i: nat)
    requires o.arcsPerCoil > 0 && i < dataLength
    requires o.radius >= 0.0 && 0.0 <= o.holeRadiusProportion <= 1.0
    requires 0.0 <= o.coilPadding <= 1.0
    ensures var s := Shape(o, dataLength, i);
      var hole := o.radius * o.holeRadiusProportion;
      && hole <= s.startInnerRadius <= s.startOuterRadius <= o.radius
      && hole <= s.endInnerRadius <= s.endOuterRadius <= o.radius
      && hole <= s.midInnerRadius <= s.midOuterRadius <= o.radius
  {
    var apc := o.arcsPerCoil as real;
    FractionsOfCoils(i, o.arcsPerCoil, Coils(dataLength, o.arcsPerCoil), dataLength);
    EdgeInRing(o, dataLength, i as real / apc);
    EdgeInRing(o, dataLength, (i as real + 0.5) / apc);
    EdgeInRing(o, dataLength, (i + 1) as real / apc);
  }

  /** An arc whose inner edge is between 0 and coils coil widths out stays in the ring. */
  lemma EdgeInRing(o: Options, dataLength: nat, turns: real)
    requires o.arcsPerCoil > 0
    requires o.radius >= 0.0 && 0.0 <= o.holeRadiusProportion <= 1.0
    requires 0.0 <= o.coilPadding <= 1.0
    requires 0.0 <= turns <= Coils(dataLength, o.arcsPerCoil) as real
    ensures var edge := InnerEdge(o, dataLength, turns);
      o.radius * o.holeRadiusProportion <= edge <= edge + Band(o, dataLength) <= o.radius
  {
    var w := CoilWidth(o, dataLength);
    CoilWidthFills(o, dataLength);
    BandWithinCoil(w, o.coilPadding);
    RingBounds(o.radius * o.holeRadiusProportion, w, Band(o, dataLength), turns,
      Coils(dataLength, o.arcsPerCoil) as real, o.radius,
      InnerEdge(o, dataLength, turns), InnerEdge(o, dataLength, turns) + Band(o, dataLength));
  }

  /** coils + 1 coil widths fill exactly the space between the hole and the radius. */
  lemma CoilWidthFills(o: Options, dataLength: nat)
    requires o.arcsPerCoil > 0
    requires o.radius >= 0.0 && o.holeRadiusProportion <= 1.0
    ensures var w := CoilWidth(o, dataLength);
      var coils := Coils(dataLength, o.arcsPerCoil) as real;
      && w >= 0.0
      && o.radius * o.holeRadiusProportion + coils * w + w == o.radius
  {
    var rest := o.radius * (1.0 - o.holeRadiusProportion);
    RealMultiplyMonotone(0.0, o.radius, 1.0 - o.holeRadiusProportion);
    var d := (Coils(dataLength, o.arcsPerCoil) + 1) as real;
    var w := rest / d;
    assert w * d == rest;
  }

  /** Datum i's inner edges sit i/n, (i + ½)/n and (i + 1)/n coils out, never beyond the coil count. */
  lemma FractionsOfCoils(i: nat, n: int, coils: nat, dataLength: nat)
    requires n > 0 && i < dataLength && n * coils >= dataLength
    ensures 0.0 <= i as real / n as real <= (i as real + 0.5) / n as real
            <= (i + 1) as real / n as real <= coils as real
  {
    var a := n as real;
    assert (i + 1) as real <= a * coils as real;
    assert ((i + 1) as real / a) * a == (i + 1) as real;
    if (i + 1) as real / a > coils as real {
      RealMultiplyMonotone(coils as real, (i + 1) as real / a, a);
      assert false;
    }
  }

  lemma BandWithinCoil(w: real, padding: real)
    requires w >= 0.0 && 0.0 <= padding <= 1.0
    ensures 0.0 <= w * (1.0 - padding) <= w
  {
    RealMultiplyMonotone(0.0, 1.0 - padding, w);
    RealMultiplyMonotone(1.0 - padding, 1.0, w);
  }

  /** An arc whose inner edge is f coil widths out, f between 0 and the coil count,
      stays between the hole and the radius. */
  lemma RingBounds(hole: real, w: real, band: real, f: real, coils: real, radius: real, inner: real, outer: real)
    requires w >= 0.0 && 0.0 <= band <= w
    requires 0.0 <= f <= coils
    requires hole + coils * w + w == radius
    requires inner == hole + f * w && outer == inner + band
    ensures hole <= inner <= outer <= radius
  {
    RealMultiplyMonotone(0.0, f, w);
    RealMultiplyMonotone(f, coils, w);
  }

  /** What an accessor returns: the option's value (getter) or the chart itself (setter). */
  datatype Access<T> = Got(value: T) | Chained(chart: SpiralHeatmapChart)

  /** The `chart` closure returned by spiralHeatmap: its options are closure
      variables, read and written through the accessors. */
  class SpiralHeatmapChart {
    var radius: real
    var holeRadiusProportion: real
    var arcsPerCoil: int
    var coilPadding: real
    var arcLabel: Label
    var coilLabel: string
    var startAngle: real

    /** spiralHeatmap(rad) with the default options. */
    constructor (rad: real)
      ensures radius == rad && holeRadiusProportion == 0.3 && arcsPerCoil == 12 && coilPadding == 0.0
      ensures arcLabel == Names(MonthNames) && coilLabel == "" && startAngle == 0.0
    {
      radius := rad;
      holeRadiusProportion := 0.3;
      arcsPerCoil := 12;
      coilPadding := 0.0;
      arcLabel := Names(MonthNames);
      coilLabel := "";
      startAngle := 0.0;
    }

    function Opts(): Options
      reads this
    {
      Options(radius, holeRadiusProportion, arcsPerCoil, coilPadding, startAngle)
    }

    /** The `arcLabelsArray` loop: the positions 0 .. arcsPerCoil − 1 in order. */
    method ArcLabels() returns (arcLabelsArray: seq<int>)
      ensures |arcLabelsArray| == if arcsPerCoil > 0 then arcsPerCoil else 0
      ensures forall k :: 0 <= k < |arcLabelsArray| ==> arcLabelsArray[k] == k
    {
      arcLabelsArray := [];
      var i := 0;
      while i < arcsPerCoil
        invariant 0 <= i <= (if arcsPerCoil > 0 then arcsPerCoil else 0)
        invariant |arcLabelsArray| == i
        invariant forall k :: 0 <= k < i ==> arcLabelsArray[k] == k
      {
        arcLabelsArray := arcLabelsArray + [i];
        i := i + 1;
      }
    }

    /** updatePathData: writes each datum's vertices, mid points, control points,
        arc number and coil number into it, and returns the same array. The model
        requires a positive whole arcsPerCoil, the 12 every caller passes; zero
        divides by zero, and negative or fractional counts give layouts the model
        does not cover. */
    method UpdatePathData<T>(data: array<Datum<T>>, trig: Trig) returns (updated: array<Datum<T>>)
      requires arcsPerCoil > 0
      modifies data
      ensures updated == data
      ensures forall i :: 0 <= i < data.Length ==>
        data[i] == old(data[i]).(annotation := Some(Annotate(Opts(), trig, data.Length, i)))
    {
      var o := Opts();
      var n := data.Length;
      var i := 0;
      while i < n
        invariant 0 <= i <= n
        invariant forall k :: 0 <= k < i ==> data[k] == old(data[k]).(annotation := Some(Annotate(o, trig, n, k)))
        invariant forall k :: i <= k < n ==> data[k] == old(data[k])
      {
        var d := Annotated(data[i], o, trig, n, i);
        data[i] := d;
        i := i + 1;
      }
      updated := data;
    }

    /** The body of updatePathData's `forEach`: datum i with its layout written in. */
    static method Annotated<T>(d: Datum<T>, o: Options, trig: Trig, n: nat, i: nat) returns (annotated: Datum<T>)
      requires o.arcsPerCoil > 0
      ensures annotated == d.(annotation := Some(Annotate(o, trig, n, i)))
    {
      annotated := d.(annotation := Some(Annotate(o, trig, n, i)));
    }

    method Radius(value: Option<real>) returns (result: Access<real>)
      modifies this`radius
      ensures value.None? ==> result == Got(old(radius)) && radius == old(radius)
      ensures value.Some? ==> result == Chained(this) && radius == value.value
    {
      if value.None? { return Got(radius); }
      radius := value.value;
      result := Chained(this);
    }

    method HoleRadiusProportion(value: Option<real>) returns (result: Access<real>)
      modifies this`holeRadiusProportion
      ensures value.None? ==> result == Got(old(holeRadiusProportion)) && holeRadiusProportion == old(holeRadiusProportion)
      ensures value.Some? ==> result == Chained(this) && holeRadiusProportion == value.value
    {
      if value.None? { return Got(holeRadiusProportion); }
      holeRadiusProportion := value.value;
      result := Chained(this);
    }

    method ArcsPerCoil(value: Option<int>) returns (result: Access<int>)
      modifies this`arcsPerCoil
      ensures value.None? ==> result == Got(old(arcsPerCoil)) && arcsPerCoil == old(arcsPerCoil)
      ensures value.Some? ==> result == Chained(this) && arcsPerCoil == value.value
    {
      if value.None? { return Got(arcsPerCoil); }
      arcsPerCoil := value.value;
      result := Chained(this);
    }

    method CoilPadding(value: Option<real>) returns (result: Access<real>)
      modifies this`coilPadding
      ensures value.None? ==> result == Got(old(coilPadding)) && coilPadding == old(coilPadding)
      ensures value.Some? ==> result == Chained(this) && coilPadding == value.value
    {
      if value.None? { return Got(coilPadding); }
      coilPadding := value.value;
      result := Chained(this);
    }

    method ArcLabel(value: Option<Label>) returns (result: Access<Label>)
      modifies this`arcLabel
      ensures value.None? ==> result == Got(old(arcLabel)) && arcLabel == old(arcLabel)
      ensures value.Some? ==> result == Chained(this) && arcLabel == value.value
    {
      if value.None? { return Got(arcLabel); }
      arcLabel := value.value;
      result := Chained(this);
    }

    method CoilLabel(value: Option<string>) returns (result: Access<string>)
      modifies this`coilLabel
      ensures value.None? ==> result == Got(old(coilLabel)) && coilLabel == old(coilLabel)
      ensures value.Some? ==> result == Chained(this) && coilLabel == value.value
    {
      if value.None? { return Got(coilLabel); }
      coilLabel := value.value;
      result := Chained(this);
    }

    method StartAngle(value: Option<real>) returns (result: Access<real>)
      modifies this`startAngle
      ensures value.None? ==> result == Got(old(startAngle)) && startAngle == old(startAngle)
      ensures value.Some? ==> result == Chained(this) && startAngle == value.value
    {
      if value.None? { return Got(startAngle); }
      startAngle := value.value;
      result := Chained(this);
    }
  }

  /** The chained configuration createSpiralHeatmap applies, followed by reading
      every option back: each getter returns the last value set, and the options
      that were not set keep their defaults. */
  method ConfiguredOptions(radius: real)
    returns (r: Access<real>, hole: Access<real>, arcs: Access<int>, padding: Access<real>,
             arcLabel: Access<Label>, coilLabel: Access<string>, start: Access<real>)
    ensures r == Got(radius) && hole == Got(0.2) && arcs == Got(12) && padding == Got(0.1)
    ensures arcLabel == Got(Field("month")) && coilLabel == Got("year") && start == Got(0.0)
  {
    var chart := new SpiralHeatmapChart(radius);
    var c := chart.Radius(Some(radius));
    c := c.chart.HoleRadiusProportion(Some(0.2));
    var n := c.chart.ArcsPerCoil(Some(12));
    c := n.chart.CoilPadding(Some(0.1));
    var l := c.chart.ArcLabel(Some(Field("month")));
    var s := l.chart.CoilLabel(Some("year"));
    r := chart.Radius(None);
    hole := chart.HoleRadiusProportion(None);
    arcs := chart.ArcsPerCoil(None);
    padding := chart.CoilPadding(None);
    arcLabel := chart.ArcLabel(None);
    coilLabel := chart.CoilLabel(None);
    start := chart.StartAngle(None);
  }
}
