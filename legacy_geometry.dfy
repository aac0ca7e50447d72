/** Cross-section geometry of the older package: a section given by its five
    numbers, rectangles, circles, and composites of placed sections whose
    second moment uses the full two-dimensional distance of each child's
    centroid from the composite's. */
module LegacyGeometry {
  import opened Common
  import Geometry

  /** The sections a composite places: one fixed by its five numbers
      (second moment, centroid, width, height, area), a rectangle, a circle. */
  datatype Shape =
    | Arbitrary(inertia: real, centroid: (real, real), width: real, height: real, area: real)
    | Rect(b: real, h: real)
    | Circle(r: real)

  /** A shape with its lower-left corner at offset (x, y) inside a composite. */
  datatype Part = Part(shape: Shape, x: real, y: real)

  datatype CrossSection = Basic(shape: Shape) | Complex(parts: seq<Part>)

  // ---------------------------------------------------------------------
  // Shapes

  function ShapeInertia(s: Shape): real
  {
    match s
    case Arbitrary(i, _, _, _, _) => i
    case Rect(b, h) => b * (h * h * h) / 12.0
    case Circle(r) => Geometry.PI * ((2.0 * r) * (2.0 * r) * (2.0 * r) * (2.0 * r)) / 64.0
  }

  function ShapeCentroid(s: Shape): (real, real)
  {
    match s
    case Arbitrary(_, c, _, _, _) => c
    case Rect(b, h) => (b / 2.0, h / 2.0)
    case Circle(r) => (r, r)
  }

  function ShapeWidth(s: Shape): real
  {
    match s
    case Arbitrary(_, _, w, _, _) => w
    case Rect(b, _) => b
    case Circle(r) => 2.0 * r
  }

  function ShapeHeight(s: Shape): real
  {
    match s
    case Arbitrary(_, _, _, h, _) => h
    case Rect(_, h) => h
    case Circle(r) => 2.0 * r
  }

  function ShapeArea(s: Shape): real
  {
    match s
    case Arbitrary(_, _, _, _, a) => a
    case Rect(b, h) => b * h
    case Circle(r) => Geometry.PI * (r * r)
  }

  /** The five numbers of a shape, frozen into a section that only stores them. */
  function Freeze(s: Shape): (a: Shape)
    ensures a.Arbitrary?
  {
    Arbitrary(ShapeInertia(s), ShapeCentroid(s), ShapeWidth(s), ShapeHeight(s), ShapeArea(s))
  }

  // ---------------------------------------------------------------------
  // Composites: folds over the placed children

  /** Python's sum of the children's areas. */
  function AreaSum(parts: seq<Part>): real
  {
    if parts == [] then 0.0
    else AreaSum(parts[..|parts| - 1]) + ShapeArea(parts[|parts| - 1].shape)
  }

  function PartOffset(c: Part, axis: Geometry.Axis): real
  {
    if axis == Geometry.X then c.x else c.y
  }

  /** Sum of area times offset child centroid along one axis. */
  function FirstMoment(parts: seq<Part>, axis: Geometry.Axis): real
  {
    if parts == [] then 0.0
    else
      var c := parts[|parts| - 1];
      FirstMoment(parts[..|parts| - 1], axis)
        + ShapeArea(c.shape) * (Geometry.Along(ShapeCentroid(c.shape), axis) + PartOffset(c, axis))
  }

  function Extents(parts: seq<Part>): (r: seq<real>)
    ensures |r| == |parts|
  {
    seq(|parts|, i requires 0 <= i < |parts| => ShapeWidth(parts[i].shape) + parts[i].x)
  }

  function Tops(parts: seq<Part>): (r: seq<real>)
    ensures |r| == |parts|
  {
    seq(|parts|, i requires 0 <= i < |parts| => ShapeHeight(parts[i].shape) + parts[i].y)
  }

  /** Squared distance, in the plane, of child c's centroid from the point ctr. */
  function DSquared(ctr: (real, real), c: Part): real
  {
    var dx := ctr.0 - c.x - ShapeCentroid(c.shape).0;
    var dy := ctr.1 - c.y - ShapeCentroid(c.shape).1;
    dx * dx + dy * dy
  }

  /** One child's own second moment plus its area times its squared distance. */
  function PartTerm(ctr: (real, real), c: Part): real
  {
    ShapeInertia(c.shape) + Times(ShapeArea(c.shape), DSquared(ctr, c))
  }

  /** Parallel-axis sum about the point ctr. */
  function ParallelAxisSum(parts: seq<Part>, ctr: (real, real)): real
  {
    if parts == [] then 0.0
    else ParallelAxisSum(parts[..|parts| - 1], ctr) + PartTerm(ctr, parts[|parts| - 1])
  }

  function InertiaSum(parts: seq<Part>): real
  {
    if parts == [] then 0.0 else InertiaSum(parts[..|parts| - 1]) + ShapeInertia(parts[|parts| - 1].shape)
  }

  // ---------------------------------------------------------------------
  // Sections

  function Area(cs: CrossSection): real
  {
    match cs
    case Basic(s) => ShapeArea(s)
    case Complex(parts) => AreaSum(parts)
  }

  /** Joining two lists of parts adds their areas, wherever they are placed. */
  lemma {:induction false} AreaAdditive(a: seq<Part>, b: seq<Part>)
    ensures Area(Complex(a + b)) == Area(Complex(a)) + Area(Complex(b))
    decreases |b|
  {
    if b == [] {
      assert a + b == a;
    } else {
      var n := |b| - 1;
      AreaAdditive(a, b[..n]);
      assert (a + b)[..|a + b| - 1] == a + b[..n];
    }
  }

  /** Rightmost extent; max() of an empty composite raises. */
  function Width(cs: CrossSection): (r: Result<real>)
    ensures cs.Complex? ==> (r.Ok? <==> |cs.parts| > 0) && (r.Err? ==> r.error == ValueError)
    ensures cs.Complex? && r.Ok? ==>
      (forall i :: 0 <= i < |cs.parts| ==> ShapeWidth(cs.parts[i].shape) + cs.parts[i].x <= r.value)
      && (exists i :: 0 <= i < |cs.parts| && ShapeWidth(cs.parts[i].shape) + cs.parts[i].x == r.value)
  {
    match cs
    case Basic(s) => Ok(ShapeWidth(s))
    case Complex(parts) =>
      if parts == [] then Err(ValueError)
      else
        var e := Extents(parts);
        assert forall i :: 0 <= i < |parts| ==> e[i] == ShapeWidth(parts[i].shape) + parts[i].x;
        Ok(Max(e))
  }

  /** Topmost extent; max() of an empty composite raises. */
  function Height(cs: CrossSection): (r: Result<real>)
    ensures cs.Complex? ==> (r.Ok? <==> |cs.parts| > 0) && (r.Err? ==> r.error == ValueError)
    ensures cs.Complex? && r.Ok? ==>
      (forall i :: 0 <= i < |cs.parts| ==> ShapeHeight(cs.parts[i].shape) + cs.parts[i].y <= r.value)
      && (exists i :: 0 <= i < |cs.parts| && ShapeHeight(cs.parts[i].shape) + cs.parts[i].y == r.value)
  {
    match cs
    case Basic(s) => Ok(ShapeHeight(s))
    case Complex(parts) =>
      if parts == [] then Err(ValueError)
      else
        var e := Tops(parts);
        assert forall i :: 0 <= i < |parts| ==> e[i] == ShapeHeight(parts[i].shape) + parts[i].y;
        Ok(Max(e))
  }

  /** Centroid along one axis: the area-weighted mean of the offset child
      centroids; a composite of zero area, the empty one included, divides
      by zero. */
  function CentroidAlong(cs: CrossSection, axis: Geometry.Axis): (r: Result<real>)
    ensures cs.Complex? ==> (r.Err? <==> AreaSum(cs.parts) == 0.0) && (r.Err? ==> r.error == ZeroDivisionError)
    ensures cs.Complex? && r.Ok? ==> r.value * AreaSum(cs.parts) == FirstMoment(cs.parts, axis)
  {
    match cs
    case Basic(s) => Ok(Geometry.Along(ShapeCentroid(s), axis))
    case Complex(parts) =>
      if AreaSum(parts) == 0.0 then Err(ZeroDivisionError)
      else Ok(FirstMoment(parts, axis) / AreaSum(parts))
  }

  function Centroid(cs: CrossSection): (r: Result<(real, real)>)
    ensures r.Ok? <==> CentroidAlong(cs, Geometry.X).Ok?
    ensures r.Ok? ==> r.value == (CentroidAlong(cs, Geometry.X).value, CentroidAlong(cs, Geometry.Y).value)
  {
    match CentroidAlong(cs, Geometry.X)
    case Err(e) => Err(e)
    case Ok(cx) => Ok((cx, CentroidAlong(cs, Geometry.Y).value))
  }

  /** Second moment of area: a composite first asks for its own centroid,
      which fails on a zero total area, even with no children at all. */
  function Inertia(cs: CrossSection): (r: Result<real>)
    ensures cs.Complex? ==> (r.Ok? <==> AreaSum(cs.parts) != 0.0)
    ensures cs.Complex? && r.Ok? ==> r.value == ParallelAxisSum(cs.parts, Centroid(cs).value)
  {
    match cs
    case Basic(s) => Ok(ShapeInertia(s))
    case Complex(parts) =>
      match Centroid(cs)
      case Err(e) => Err(e)
      case Ok(c) => Ok(ParallelAxisSum(parts, c))
  }

  // ---------------------------------------------------------------------
  // The two accumulator loops of the composite class

  /** centroid_along: accumulates area times offset centroid, then divides
      by the area. */
  method ComputeCentroidAlong(parts: seq<Part>, axis: Geometry.Axis) returns (r: Result<real>)
    ensures r == CentroidAlong(Complex(parts), axis)
  {
    var total := 0.0;
    var i := 0;
    while i < |parts|
      invariant 0 <= i <= |parts|
      invariant total == FirstMoment(parts[..i], axis)
    {
      var c := parts[i];
      var offsets := (c.x, c.y);
      total := total + ShapeArea(c.shape) * (Geometry.Along(ShapeCentroid(c.shape), axis) + Geometry.Along(offsets, axis));
      assert parts[..i + 1][..i] == parts[..i];
      i := i + 1;
    }
    assert parts[..i] == parts;
    var area := AreaSum(parts);
    if area == 0.0 {
      return Err(ZeroDivisionError);
    }
    r := Ok(total / area);
  }

  /** moment_of_inertia of a composite: the centroid, then one parallel-axis
      term per child. */
  method ComputeInertia(parts: seq<Part>) returns (r: Result<real>)
    ensures r == Inertia(Complex(parts))
  {
    var cx := ComputeCentroidAlong(parts, Geometry.X);
    if cx.Err? {
      return Err(cx.error);
    }
    var cy := ComputeCentroidAlong(parts, Geometry.Y);
    var ctr := (cx.value, cy.value);
    var total := 0.0;
    var i := 0;
    while i < |parts|
      invariant 0 <= i <= |parts|
      invariant total == ParallelAxisSum(parts[..i], ctr)
    {
      var c := parts[i];
      total := total + PartTerm(ctr, c);
      assert parts[..i + 1][..i] == parts[..i];
      i := i + 1;
    }
    assert parts[..i] == parts;
    r := Ok(total);
  }

  // ---------------------------------------------------------------------
  // Properties

  /** A section given by its five numbers answers exactly those numbers. */
  lemma ArbitraryAnswers(i: real, c: (real, real), w: real, h: real, a: real)
    ensures Inertia(Basic(Arbitrary(i, c, w, h, a))) == Ok(i)
    ensures Centroid(Basic(Arbitrary(i, c, w, h, a))) == Ok(c)
    ensures Width(Basic(Arbitrary(i, c, w, h, a))) == Ok(w)
    ensures Height(Basic(Arbitrary(i, c, w, h, a))) == Ok(h)
    ensures Area(Basic(Arbitrary(i, c, w, h, a))) == a
  {
  }

  function FrozenParts(parts: seq<Part>): (r: seq<Part>)
    ensures |r| == |parts|
  {
    seq(|parts|, i requires 0 <= i < |parts| => Part(Freeze(parts[i].shape), parts[i].x, parts[i].y))
  }

  lemma FrozenPrefix(parts: seq<Part>, n: int)
    requires 0 <= n <= |parts|
    ensures FrozenParts(parts)[..n] == FrozenParts(parts[..n])
  {
  }

  lemma {:induction false} FrozenAreaSum(parts: seq<Part>)
    ensures AreaSum(FrozenParts(parts)) == AreaSum(parts)
  {
    if parts != [] {
      var n := |parts| - 1;
      FrozenAreaSum(parts[..n]);
      FrozenPrefix(parts, n);
    }
  }

  lemma {:induction false} FrozenFirstMoment(parts: seq<Part>, axis: Geometry.Axis)
    ensures FirstMoment(FrozenParts(parts), axis) == FirstMoment(parts, axis)
  {
    if parts != [] {
      var n := |parts| - 1;
      FrozenFirstMoment(parts[..n], axis);
      FrozenPrefix(parts, n);
    }
  }

  lemma {:induction false} FrozenParallelAxisSum(parts: seq<Part>, ctr: (real, real))
    ensures ParallelAxisSum(FrozenParts(parts), ctr) == ParallelAxisSum(parts, ctr)
  {
    if parts != [] {
      var n := |parts| - 1;
      FrozenParallelAxisSum(parts[..n], ctr);
      FrozenPrefix(parts, n);
      var c := parts[n];
      assert FrozenParts(parts)[n] == Part(Freeze(c.shape), c.x, c.y);
      FrozenPartTerm(ctr, c);
    }
  }

  /** A frozen child contributes the same parallel-axis term. */
  lemma FrozenPartTerm(ctr: (real, real), c: Part)
    ensures PartTerm(ctr, Part(Freeze(c.shape), c.x, c.y)) == PartTerm(ctr, c)
  {
    var f := Part(Freeze(c.shape), c.x, c.y);
    assert ShapeCentroid(f.shape) == ShapeCentroid(c.shape);
    assert DSquared(ctr, f) == DSquared(ctr, c);
  }

  /** Replacing every child of a composite by its frozen five numbers changes
      none of the composite's answers: a composite only ever asks its
      children for those five numbers. */
  lemma FreezeComposite(parts: seq<Part>)
    ensures Area(Complex(FrozenParts(parts))) == Area(Complex(parts))
    ensures Width(Complex(FrozenParts(parts))) == Width(Complex(parts))
    ensures Height(Complex(FrozenParts(parts))) == Height(Complex(parts))
    ensures Centroid(Complex(FrozenParts(parts))) == Centroid(Complex(parts))
    ensures Inertia(Complex(FrozenParts(parts))) == Inertia(Complex(parts))
  {
    FrozenAreaSum(parts);
    FrozenFirstMoment(parts, Geometry.X);
    FrozenFirstMoment(parts, Geometry.Y);
    assert Extents(FrozenParts(parts)) == Extents(parts);
    assert Tops(FrozenParts(parts)) == Tops(parts);
    var c := Centroid(Complex(parts));
    if c.Ok? {
      FrozenParallelAxisSum(parts, c.value);
    }
  }

  /** The rectangle and the circle are centred in their bounding boxes, and
      their second moments are A h^2 / 12 and A d^2 / 16. */
  lemma PrimitiveFacts(s: Shape)
    requires !s.Arbitrary?
    ensures ShapeCentroid(s) == (ShapeWidth(s) / 2.0, ShapeHeight(s) / 2.0)
    ensures s.Rect? ==> 12.0 * ShapeInertia(s) == ShapeArea(s) * (ShapeHeight(s) * ShapeHeight(s))
    ensures s.Circle? ==> 16.0 * ShapeInertia(s) == ShapeArea(s) * (ShapeWidth(s) * ShapeWidth(s))
  {
    if s.Circle? {
      var r := s.r;
      assert (2.0 * r) * (2.0 * r) * (2.0 * r) * (2.0 * r) == 4.0 * (r * r) * ((2.0 * r) * (2.0 * r));
    }
  }

  /** A composite of one child at the origin reproduces that child. */
  lemma SingleChild(s: Shape)
    ensures Area(Complex([Part(s, 0.0, 0.0)])) == ShapeArea(s)
    ensures Width(Complex([Part(s, 0.0, 0.0)])) == Ok(ShapeWidth(s))
    ensures Height(Complex([Part(s, 0.0, 0.0)])) == Ok(ShapeHeight(s))
    ensures ShapeArea(s) != 0.0 ==> Centroid(Complex([Part(s, 0.0, 0.0)])) == Ok(ShapeCentroid(s))
    ensures ShapeArea(s) != 0.0 ==> Inertia(Complex([Part(s, 0.0, 0.0)])) == Ok(ShapeInertia(s))
    ensures ShapeArea(s) == 0.0 ==> Inertia(Complex([Part(s, 0.0, 0.0)])) == Err(ZeroDivisionError)
  {
    var c := Part(s, 0.0, 0.0);
    var parts := [c];
    assert parts[..0] == [];
    var a := ShapeArea(s);
    assert AreaSum(parts) == a;
    if a != 0.0 {
      var cx, cy := ShapeCentroid(s).0, ShapeCentroid(s).1;
      assert FirstMoment(parts, Geometry.X) == a * cx;
      assert FirstMoment(parts, Geometry.Y) == a * cy;
      assert (a * cx) / a == cx;
      assert (a * cy) / a == cy;
      assert DSquared((cx, cy), c) == 0.0;
      assert ParallelAxisSum(parts, (cx, cy)) == ShapeInertia(s) + Times(a, 0.0);
    }
  }

  /** With non-negative child areas the parallel-axis terms only add: the
      composite's second moment is at least the sum of the children's. */
  lemma {:induction false} ParallelAxisBound(parts: seq<Part>, ctr: (real, real))
    requires forall i :: 0 <= i < |parts| ==> ShapeArea(parts[i].shape) >= 0.0
    ensures ParallelAxisSum(parts, ctr) >= InertiaSum(parts)
  {
    if parts != [] {
      var n := |parts| - 1;
      var c := parts[n];
      assert forall i :: 0 <= i < n ==> parts[..n][i] == parts[i];
      ParallelAxisBound(parts[..n], ctr);
      var dx := ctr.0 - c.x - ShapeCentroid(c.shape).0;
      var dy := ctr.1 - c.y - ShapeCentroid(c.shape).1;
      assert DSquared(ctr, c) == dx * dx + dy * dy >= 0.0;
      MulNonneg(ShapeArea(c.shape), DSquared(ctr, c));
    }
  }

  lemma InertiaBound(parts: seq<Part>)
    requires forall i :: 0 <= i < |parts| ==> ShapeArea(parts[i].shape) >= 0.0
    ensures Inertia(Complex(parts)).Ok? ==> Inertia(Complex(parts)).value >= InertiaSum(parts)
  {
    var c := Centroid(Complex(parts));
    if c.Ok? {
      ParallelAxisBound(parts, c.value);
    }
  }

  // ---------------------------------------------------------------------
  // The I-beam preset

  function IBeamParts(d: real, bf: real, t: real, bw: real): seq<Part>
  {
    [ Part(Rect(bf, t), 0.0, 0.0),
      Part(Rect(bw, d - 2.0 * t), 0.5 * (bf - bw), t),
      Part(Rect(bf, t), 0.0, d - t) ]
  }

  function IBeam(d: real, bf: real, t: real, bw: real): CrossSection
  {
    Complex(IBeamParts(d, bf, t, bw))
  }

  lemma AreaSum3(c0: Part, c1: Part, c2: Part)
    ensures AreaSum([c0, c1, c2]) == ShapeArea(c0.shape) + ShapeArea(c1.shape) + ShapeArea(c2.shape)
  {
    assert [c0, c1, c2][..2] == [c0, c1] && [c0, c1][..1] == [c0] && [c0][..0] == [];
    assert AreaSum([c0]) == ShapeArea(c0.shape);
    assert AreaSum([c0, c1]) == ShapeArea(c0.shape) + ShapeArea(c1.shape);
  }

  lemma FirstMoment3(c0: Part, c1: Part, c2: Part, axis: Geometry.Axis)
    ensures FirstMoment([c0, c1, c2], axis)
      == ShapeArea(c0.shape) * (Geometry.Along(ShapeCentroid(c0.shape), axis) + PartOffset(c0, axis))
       + ShapeArea(c1.shape) * (Geometry.Along(ShapeCentroid(c1.shape), axis) + PartOffset(c1, axis))
       + ShapeArea(c2.shape) * (Geometry.Along(ShapeCentroid(c2.shape), axis) + PartOffset(c2, axis))
  {
    assert [c0, c1, c2][..2] == [c0, c1] && [c0, c1][..1] == [c0] && [c0][..0] == [];
    var m0 := ShapeArea(c0.shape) * (Geometry.Along(ShapeCentroid(c0.shape), axis) + PartOffset(c0, axis));
    var m1 := ShapeArea(c1.shape) * (Geometry.Along(ShapeCentroid(c1.shape), axis) + PartOffset(c1, axis));
    assert FirstMoment([c0], axis) == m0;
    assert FirstMoment([c0, c1], axis) == m0 + m1;
  }

  /** The I-beam's area, height and width, for flanges no thicker than half
      the depth and a web no wider than the flanges. */
  lemma IBeamExtent(d: real, bf: real, t: real, bw: real)
    requires 0.0 <= t && 2.0 * t <= d && bw <= bf
    ensures Area(IBeam(d, bf, t, bw)) == 2.0 * bf * t + bw * (d - 2.0 * t)
    ensures Height(IBeam(d, bf, t, bw)) == Ok(d)
    ensures Width(IBeam(d, bf, t, bw)) == Ok(bf)
  {
    var parts := IBeamParts(d, bf, t, bw);
    AreaSum3(parts[0], parts[1], parts[2]);
    var e := Tops(parts);
    assert e[0] == t && e[1] == d - 2.0 * t + t && e[2] == t + (d - t);
    var w := Extents(parts);
    assert w[0] == bf && w[1] == bw + 0.5 * (bf - bw) && w[2] == bf;
  }

  /** The I-beam's centroid sits at mid-width and mid-depth. */
  lemma IBeamCentroid(d: real, bf: real, t: real, bw: real)
    requires Area(IBeam(d, bf, t, bw)) != 0.0
    ensures Centroid(IBeam(d, bf, t, bw)) == Ok((bf / 2.0, d / 2.0))
  {
    var parts := IBeamParts(d, bf, t, bw);
    AreaSum3(parts[0], parts[1], parts[2]);
    FirstMoment3(parts[0], parts[1], parts[2], Geometry.X);
    FirstMoment3(parts[0], parts[1], parts[2], Geometry.Y);
    Geometry.IBeamMomentAlgebra(d, bf, t, bw);
    DivExact(FirstMoment(parts, Geometry.X), AreaSum(parts), bf / 2.0);
    DivExact(FirstMoment(parts, Geometry.Y), AreaSum(parts), d / 2.0);
  }
}
