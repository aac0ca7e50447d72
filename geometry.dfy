/** Cross-section geometry of the current package: rectangles, circles, and
    composites of placed primitives, with the presets built from rectangles
    (hollow box, I-beam, course girder). Sections are immutable values. */
module Geometry {
  import opened Common

  /** math.pi as a positive constant; no lemma depends on its digits. */
  const PI: real := 3.141592653589793

  datatype Primitive = Rect(b: real, h: real) | Circle(r: real)

  /** A primitive with its lower-left corner at offset (x, y) inside a composite. */
  datatype Placed = Placed(shape: Primitive, x: real, y: real)

  /** Which class built a composite, with that class's constructor arguments. */
  datatype Kind =
    | PlainKind
    | HollowKind(hb: real, hh: real, thickness: real)
    | IBeamKind(d: real, bf: real, t: real, bw: real)
    | GirderKind(top: real, bottom: real, height: real, wall: real, outreach: real, glue: bool)

  datatype Section = Prim(p: Primitive) | Composite(parts: seq<Placed>, kind: Kind)

  datatype Axis = X | Y

  // ---------------------------------------------------------------------
  // Primitives

  function PArea(p: Primitive): real
  {
    match p
    case Rect(b, h) => b * h
    case Circle(r) => PI * (r * r)
  }

  function PInertia(p: Primitive): real
  {
    match p
    case Rect(b, h) => b * (h * h * h) / 12.0
    case Circle(r) => PI * ((2.0 * r) * (2.0 * r) * (2.0 * r) * (2.0 * r)) / 64.0
  }

  function PCentroid(p: Primitive): (real, real)
  {
    match p
    case Rect(b, h) => (b * 0.5, h * 0.5)
    case Circle(r) => (r, r)
  }

  function PWidth(p: Primitive): real
  {
    match p
    case Rect(b, _) => b
    case Circle(r) => 2.0 * r
  }

  function PHeight(p: Primitive): real
  {
    match p
    case Rect(_, h) => h
    case Circle(r) => 2.0 * r
  }

  /** The range check of a primitive's cut-line queries. */
  predicate PInRange(p: Primitive, y: real)
  {
    0.0 <= y < PHeight(p)
  }

  /** Area of the part of p above the cut line y. The circle branch keeps the
      segment formula of the source, which reduces to the whole disc. */
  function PAreaAbove(p: Primitive, y: real): (r: Result<real>)
    ensures r.Err? <==> !PInRange(p, y)
    ensures r.Err? ==> r.error == ValueError
  {
    if !PInRange(p, y) then Err(ValueError)
    else match p
      case Rect(b, h) => Ok(b * (h - y))
      case Circle(r) =>
        var d := 2.0 * r;
        var theta := 2.0 * PI - 2.0 * (PI - PI * (d - y) / d);
        Ok(r * r * (theta - 2.0 * (theta - PI) / 2.0))
  }

  /** First moment of the part of p above y about the cut line. */
  function PQ(p: Primitive, y: real): (r: Result<real>)
    ensures r.Err? <==> !PInRange(p, y)
    ensures r.Err? ==> r.error == ValueError
  {
    if !PInRange(p, y) then Err(ValueError)
    else match p
      case Rect(b, h) => Ok(0.5 * b * ((h - y) * (h - y)))
      case Circle(r) => Ok(PAreaAbove(p, y).value * ((2.0 * r + y) / 2.0 - y))
  }

  /** The part of p above y as a primitive of its own; a circle cannot do it. */
  function PSubAbove(p: Primitive, y: real): (r: Result<Primitive>)
    ensures p.Circle? ==> r == Err(NotImplementedError)
    ensures p.Rect? ==> (r.Ok? <==> PInRange(p, y))
    ensures p.Rect? && r.Err? ==> r.error == ValueError
    ensures r.Ok? ==> r.value.Rect? && r.value.b == p.b && r.value.h == p.h - y
  {
    match p
    case Rect(b, h) => if !PInRange(p, y) then Err(ValueError) else Ok(Rect(b, h - y))
    case Circle(_) => Err(NotImplementedError)
  }

  lemma RectCutQueries(b: real, h: real, y: real)
    requires 0.0 <= y < h
    ensures PAreaAbove(Rect(b, h), 0.0) == Ok(PArea(Rect(b, h)))
    ensures PQ(Rect(b, h), y).value == PAreaAbove(Rect(b, h), y).value * (h - y) / 2.0
    ensures PArea(PSubAbove(Rect(b, h), y).value) == PAreaAbove(Rect(b, h), y).value
    ensures PieceMoment(PSubAbove(Rect(b, h), y).value) == PQ(Rect(b, h), y).value
  {
    var a := b * (h - y);
    assert PQ(Rect(b, h), y).value == 0.5 * b * ((h - y) * (h - y));
    assert 0.5 * b * ((h - y) * (h - y)) == a * (h - y) / 2.0;
    assert a * ((h - y) * 0.5) == a * (h - y) / 2.0;
  }

  /** The circle's segment formula always yields the whole disc. */
  lemma CircleAreaAbove(r: real, y: real)
    requires PInRange(Circle(r), y)
    ensures PAreaAbove(Circle(r), y) == Ok(PArea(Circle(r)))
  {
    var d := 2.0 * r;
    var theta := 2.0 * PI - 2.0 * (PI - PI * (d - y) / d);
    assert theta - 2.0 * (theta - PI) / 2.0 == PI;
  }

  // ---------------------------------------------------------------------
  // Composites: folds over the placed children

  /** Area of a piece times its own centroid height: its first moment about its base. */
  function PieceMoment(p: Primitive): real
  {
    PArea(p) * PCentroid(p).1
  }

  /** Python's sum of the children's areas. */
  function AreaSum(parts: seq<Placed>): real
  {
    if parts == [] then 0.0
    else AreaSum(parts[..|parts| - 1]) + PArea(parts[|parts| - 1].shape)
  }

  function Offset(c: Placed, axis: Axis): real
  {
    if axis == X then c.x else c.y
  }

  function Along(pt: (real, real), axis: Axis): real
  {
    if axis == X then pt.0 else pt.1
  }

  /** Sum of area times offset child centroid along one axis. */
  function FirstMoment(parts: seq<Placed>, axis: Axis): real
  {
    if parts == [] then 0.0
    else
      var c := parts[|parts| - 1];
      FirstMoment(parts[..|parts| - 1], axis)
        + PArea(c.shape) * (Along(PCentroid(c.shape), axis) + Offset(c, axis))
  }

  function Extents(parts: seq<Placed>): (r: seq<real>)
    ensures |r| == |parts|
  {
    seq(|parts|, i requires 0 <= i < |parts| => PWidth(parts[i].shape) + parts[i].x)
  }

  function Tops(parts: seq<Placed>): (r: seq<real>)
    ensures |r| == |parts|
  {
    seq(|parts|, i requires 0 <= i < |parts| => PHeight(parts[i].shape) + parts[i].y)
  }

  function ChildMinWidths(parts: seq<Placed>): (r: seq<real>)
    ensures |r| == |parts|
  {
    seq(|parts|, i requires 0 <= i < |parts| => PWidth(parts[i].shape))
  }

  // ---------------------------------------------------------------------
  // Sections

  function Area(s: Section): real
  {
    match s
    case Prim(p) => PArea(p)
    case Composite(parts, _) => AreaSum(parts)
  }

  /** Joining two lists of children adds their areas: a composite's area is
      the sum over its children, wherever they are placed. */
  lemma {:induction false} AreaAdditive(a: seq<Placed>, b: seq<Placed>, kind: Kind)
    ensures Area(Composite(a + b, kind)) == Area(Composite(a, kind)) + Area(Composite(b, kind))
    decreases |b|
  {
    if b == [] {
      assert a + b == a;
    } else {
      var n := |b| - 1;
      AreaAdditive(a, b[..n], kind);
      assert (a + b)[..|a + b| - 1] == a + b[..n];
    }
  }

  /** Rightmost extent; max() of an empty composite raises. */
  function Width(s: Section): (r: Result<real>)
    ensures s.Composite? ==> (r.Ok? <==> |s.parts| > 0)
    ensures s.Composite? && r.Ok? ==>
      (forall i :: 0 <= i < |s.parts| ==> PWidth(s.parts[i].shape) + s.parts[i].x <= r.value)
      && (exists i :: 0 <= i < |s.parts| && PWidth(s.parts[i].shape) + s.parts[i].x == r.value)
  {
    match s
    case Prim(p) => Ok(PWidth(p))
    case Composite(parts, _) =>
      if parts == [] then Err(ValueError)
      else
        var e := Extents(parts);
        assert forall i :: 0 <= i < |parts| ==> e[i] == PWidth(parts[i].shape) + parts[i].x;
        Ok(Max(e))
  }

  /** Topmost extent; max() of an empty composite raises. */
  function Height(s: Section): (r: Result<real>)
    ensures s.Composite? ==> (r.Ok? <==> |s.parts| > 0)
    ensures s.Composite? && r.Ok? ==>
      (forall i :: 0 <= i < |s.parts| ==> PHeight(s.parts[i].shape) + s.parts[i].y <= r.value)
      && (exists i :: 0 <= i < |s.parts| && PHeight(s.parts[i].shape) + s.parts[i].y == r.value)
  {
    match s
    case Prim(p) => Ok(PHeight(p))
    case Composite(parts, _) =>
      if parts == [] then Err(ValueError)
      else
        var e := Tops(parts);
        assert forall i :: 0 <= i < |parts| ==> e[i] == PHeight(parts[i].shape) + parts[i].y;
        Ok(Max(e))
  }

  /** Narrowest width: a primitive's own width, the narrowest child of a plain
      composite, or the fixed rule of each preset. */
  function MinWidth(s: Section): (r: Result<real>)
    ensures s.Composite? && s.kind.PlainKind? ==> (r.Ok? <==> |s.parts| > 0)
    ensures s.Composite? && s.kind.PlainKind? && r.Ok? ==>
      (forall i :: 0 <= i < |s.parts| ==> r.value <= PWidth(s.parts[i].shape))
      && (exists i :: 0 <= i < |s.parts| && PWidth(s.parts[i].shape) == r.value)
  {
    match s
    case Prim(p) => Ok(PWidth(p))
    case Composite(parts, kind) =>
      match kind
      case PlainKind =>
        if parts == [] then Err(ValueError)
        else
          var w := ChildMinWidths(parts);
          assert forall i :: 0 <= i < |parts| ==> w[i] == PWidth(parts[i].shape);
          Ok(Min(w))
      case HollowKind(_, _, thickness) => Ok(2.0 * thickness)
      case IBeamKind(_, _, _, bw) => Ok(bw)
      case GirderKind(_, _, _, wall, _, _) => Ok(2.0 * wall)
  }

  /** Centroid along one axis: the area-weighted mean of the offset child
      centroids; a composite of zero area divides by zero. */
  function CentroidAlong(s: Section, axis: Axis): (r: Result<real>)
    ensures s.Composite? ==> (r.Err? <==> AreaSum(s.parts) == 0.0)
    ensures s.Composite? && r.Ok? ==> r.value * AreaSum(s.parts) == FirstMoment(s.parts, axis)
  {
    match s
    case Prim(p) => Ok(Along(PCentroid(p), axis))
    case Composite(parts, _) =>
      if AreaSum(parts) == 0.0 then Err(ZeroDivisionError)
      else Ok(FirstMoment(parts, axis) / AreaSum(parts))
  }

  function Centroid(s: Section): (r: Result<(real, real)>)
    ensures r.Ok? <==> CentroidAlong(s, X).Ok?
    ensures r.Ok? ==> r.value == (CentroidAlong(s, X).value, CentroidAlong(s, Y).value)
  {
    match CentroidAlong(s, X)
    case Err(e) => Err(e)
    case Ok(cx) => Ok((cx, CentroidAlong(s, Y).value))
  }

  /** Squared vertical distance of child c's centroid from the centroid height ybar. */
  function DSquared(ybar: real, c: Placed): real
  {
    var dy := ybar - c.y - PCentroid(c.shape).1;
    dy * dy
  }

  /** Parallel-axis sum about the horizontal axis through ybar. */
  function ParallelAxisSum(parts: seq<Placed>, ybar: real): real
  {
    if parts == [] then 0.0
    else
      var c := parts[|parts| - 1];
      ParallelAxisSum(parts[..|parts| - 1], ybar) + PInertia(c.shape) + PArea(c.shape) * DSquared(ybar, c)
  }

  function InertiaSum(parts: seq<Placed>): real
  {
    if parts == [] then 0.0 else InertiaSum(parts[..|parts| - 1]) + PInertia(parts[|parts| - 1].shape)
  }

  /** Second moment of area. An empty composite sums nothing; otherwise every
      term needs the centroid, which fails on a zero total area. */
  function Inertia(s: Section): (r: Result<real>)
    ensures s.Composite? && s.parts == [] ==> r == Ok(0.0)
    ensures s.Composite? && s.parts != [] ==> (r.Ok? <==> Centroid(s).Ok?)
    ensures s.Composite? && s.parts != [] && r.Ok? ==>
      r.value == ParallelAxisSum(s.parts, Centroid(s).value.1)
  {
    match s
    case Prim(p) => Ok(PInertia(p))
    case Composite(parts, _) =>
      if parts == [] then Ok(0.0)
      else match Centroid(s)
        case Err(e) => Err(e)
        case Ok(c) => Ok(ParallelAxisSum(parts, c.1))
  }

  /** The range check of a section's cut-line queries (the composite one needs
      the height, which an empty composite does not have). */
  function CheckY(s: Section, y: real): (r: Result<()>)
    ensures r.Ok? <==> Height(s).Ok? && 0.0 <= y < Height(s).value
  {
    match Height(s)
    case Err(e) => Err(e)
    case Ok(h) => if 0.0 <= y < h then Ok(()) else Err(ValueError)
  }

  predicate Crosses(c: Placed, y: real)
  {
    c.y <= y < c.y + PHeight(c.shape)
  }

  /** The children whose vertical extent contains the cut line (their
      multiplicity is CrossedCount, their order CrossedInOrder). */
  function Crossed(parts: seq<Placed>, y: real): (r: seq<Placed>)
    ensures forall c :: c in r <==> c in parts && Crosses(c, y)
    ensures forall i :: 0 <= i < |r| ==> Crosses(r[i], y)
  {
    if parts == [] then []
    else
      var c := parts[|parts| - 1];
      Crossed(parts[..|parts| - 1], y) + (if Crosses(c, y) then [c] else [])
  }

  /** Crossed keeps each crossed child as often as it occurs among the
      children, and drops every other child. */
  lemma {:induction false} CrossedCount(parts: seq<Placed>, y: real)
    ensures forall c :: multiset(Crossed(parts, y))[c] == if Crosses(c, y) then multiset(parts)[c] else 0
    decreases |parts|
  {
    if parts != [] {
      var c := parts[|parts| - 1];
      CrossedCount(parts[..|parts| - 1], y);
      assert parts == parts[..|parts| - 1] + [c];
    }
  }

  /** The indices of the children the cut line crosses, in increasing order:
      each one names a child of the list, and a child is crossed exactly when
      its index is among them. */
  function CrossedIndices(parts: seq<Placed>, y: real): (ix: seq<int>)
    ensures forall i :: 0 <= i < |ix| ==> 0 <= ix[i] < |parts|
    ensures forall i, j :: 0 <= i < j < |ix| ==> ix[i] < ix[j]
    ensures forall k :: 0 <= k < |parts| ==> (Crosses(parts[k], y) <==> k in ix)
  {
    if parts == [] then []
    else
      var k := |parts| - 1;
      var init := parts[..k];
      assert forall j :: 0 <= j < k ==> parts[j] == init[j];
      CrossedIndices(init, y) + (if Crosses(parts[k], y) then [k] else [])
  }

  /** Crossed is an in-order filter: it is the subsequence of the children at
      the increasing indices where the cut line crosses. */
  lemma {:induction false} CrossedInOrder(parts: seq<Placed>, y: real)
    ensures |CrossedIndices(parts, y)| == |Crossed(parts, y)|
    ensures forall i :: 0 <= i < |CrossedIndices(parts, y)| ==> Crossed(parts, y)[i] == parts[CrossedIndices(parts, y)[i]]
    decreases |parts|
  {
    if parts != [] {
      var k := |parts| - 1;
      var init := parts[..k];
      CrossedInOrder(init, y);
      var ix, r := CrossedIndices(parts, y), Crossed(parts, y);
      var ix0, r0 := CrossedIndices(init, y), Crossed(init, y);
      assert ix == ix0 + (if Crosses(parts[k], y) then [k] else []);
      assert r == r0 + (if Crosses(parts[k], y) then [parts[k]] else []);
      forall i | 0 <= i < |ix|
        ensures r[i] == parts[ix[i]]
      {
        if i < |ix0| {
          assert r[i] == r0[i] == init[ix0[i]];
        }
      }
    }
  }

  function SelectComponentsAbove(s: Section, y: real): (r: Result<seq<Placed>>)
    requires s.Composite?
    ensures r.Ok? <==> CheckY(s, y).Ok?
    ensures r.Ok? ==> r.value == Crossed(s.parts, y)
  {
    match CheckY(s, y)
    case Err(e) => Err(e)
    case Ok(_) => Ok(Crossed(s.parts, y))
  }

  /** Sum of the crossed children's areas above the cut (clamped at 0). */
  function AreaAboveSum(cs: seq<Placed>, y: real): Result<real>
  {
    if cs == [] then Ok(0.0)
    else
      var c := cs[|cs| - 1];
      match AreaAboveSum(cs[..|cs| - 1], y)
      case Err(e) => Err(e)
      case Ok(acc) =>
        match PAreaAbove(c.shape, Max2(y - c.y, 0.0))
        case Err(e) => Err(e)
        case Ok(a) => Ok(acc + a)
  }

  function AreaAbove(s: Section, y: real): Result<real>
  {
    match s
    case Prim(p) => PAreaAbove(p, y)
    case Composite(parts, _) =>
      match SelectComponentsAbove(s, y)
      case Err(e) => Err(e)
      case Ok(cs) => AreaAboveSum(cs, y)
  }

  /** The composite q: for each crossed child in order, the area of its piece
      above the cut times that piece's own centroid height. */
  function QSum(cs: seq<Placed>, y: real): Result<real>
  {
    if cs == [] then Ok(0.0)
    else
      var c := cs[|cs| - 1];
      match QSum(cs[..|cs| - 1], y)
      case Err(e) => Err(e)
      case Ok(acc) =>
        match PSubAbove(c.shape, y - c.y)
        case Err(e) => Err(e)
        case Ok(sub) => Ok(acc + PieceMoment(sub))
  }

  function Q(s: Section, y: real): Result<real>
  {
    match s
    case Prim(p) => PQ(p, y)
    case Composite(parts, _) =>
      match SelectComponentsAbove(s, y)
      case Err(e) => Err(e)
      case Ok(cs) => QSum(cs, y)
  }

  /** q at the centroid height. */
  function QMax(s: Section): Result<real>
  {
    match Centroid(s)
    case Err(e) => Err(e)
    case Ok(c) => Q(s, c.1)
  }

  /** q_max of a b x h rectangle is b h^2 / 8, the first moment of its upper
      half; a rectangle without height has no admissible centroid cut. */
  lemma QMaxRect(b: real, h: real)
    ensures QMax(Prim(Rect(b, h))).Ok? <==> h > 0.0
    ensures h > 0.0 ==> QMax(Prim(Rect(b, h))).value == b * h * h / 8.0
  {
    assert 0.5 * b * ((h - h * 0.5) * (h - h * 0.5)) == b * h * h / 8.0;
  }

  /** The pieces above the cut, each dropped onto the cut line. */
  function SubParts(cs: seq<Placed>, y: real): Result<seq<Placed>>
  {
    if cs == [] then Ok([])
    else
      var c := cs[|cs| - 1];
      match SubParts(cs[..|cs| - 1], y)
      case Err(e) => Err(e)
      case Ok(acc) =>
        match PSubAbove(c.shape, y - c.y)
        case Err(e) => Err(e)
        case Ok(sub) => Ok(acc + [Placed(sub, c.x, 0.0)])
  }

  /** A composite rebuilds itself with its own class from the pieces; a preset
      class takes different constructor arguments, so that call fails. */
  function SubAbove(s: Section, y: real): Result<Section>
  {
    match s
    case Prim(p) =>
      (match PSubAbove(p, y)
       case Err(e) => Err(e)
       case Ok(q) => Ok(Prim(q)))
    case Composite(parts, kind) =>
      match SelectComponentsAbove(s, y)
      case Err(e) => Err(e)
      case Ok(cs) =>
        match SubParts(cs, y)
        case Err(e) => Err(e)
        case Ok(r) => if kind.PlainKind? then Ok(Composite(r, PlainKind)) else Err(TypeError)
  }

  // ---------------------------------------------------------------------
  // The three accumulator loops of the composite class

  /** Accumulates area times offset centroid, then divides by the area. */
  method ComputeCentroidAlong(parts: seq<Placed>, kind: Kind, axis: Axis) returns (r: Result<real>)
    ensures r == CentroidAlong(Composite(parts, kind), axis)
  {
    var total := 0.0;
    var i := 0;
    while i < |parts|
      invariant 0 <= i <= |parts|
      invariant total == FirstMoment(parts[..i], axis)
    {
      var c := parts[i];
      FirstMomentStep(parts, i, axis);
      total := total + PArea(c.shape) * (Along(PCentroid(c.shape), axis) + Offset(c, axis));
      i := i + 1;
    }
    assert parts[..i] == parts;
    var area := AreaSum(parts);
    if area == 0.0 {
      return Err(ZeroDivisionError);
    }
    r := Ok(total / area);
  }

  lemma FirstMomentStep(parts: seq<Placed>, i: int, axis: Axis)
    requires 0 <= i < |parts|
    ensures FirstMoment(parts[..i + 1], axis)
      == FirstMoment(parts[..i], axis)
         + PArea(parts[i].shape) * (Along(PCentroid(parts[i].shape), axis) + Offset(parts[i], axis))
  {
    assert parts[..i + 1][..i] == parts[..i];
  }

  /** q of a composite: a loop over the crossed children. */
  method ComputeQ(parts: seq<Placed>, kind: Kind, y: real) returns (r: Result<real>)
    ensures r == Q(Composite(parts, kind), y)
  {
    var sel := SelectComponentsAbove(Composite(parts, kind), y);
    if sel.Err? {
      return Err(sel.error);
    }
    r := QFold(sel.value, y);
  }

  /** The loop of q over the crossed children: the moment of each piece
      above the cut, summed. */
  method QFold(cs: seq<Placed>, y: real) returns (r: Result<real>)
    requires forall i :: 0 <= i < |cs| ==> Crosses(cs[i], y)
    ensures r == QSum(cs, y)
  {
    var q := 0.0;
    var i := 0;
    while i < |cs|
      invariant 0 <= i <= |cs|
      invariant QSum(cs[..i], y) == Ok(q)
    {
      var c := cs[i];
      QSumStep(cs, i, y, q);
      assert Crosses(c, y);
      var relativeY := y - c.y;
      if relativeY < 0.0 {
        assert false;
      }
      var sub := PSubAbove(c.shape, relativeY);
      if sub.Err? {
        PrefixErr(cs, y, i + 1);
        return Err(sub.error);
      }
      q := q + PieceMoment(sub.value);
      i := i + 1;
    }
    assert cs[..i] == cs;
    r := Ok(q);
  }

  /** One more crossed child extends the q fold by its piece's moment. */
  lemma QSumStep(cs: seq<Placed>, i: int, y: real, q: real)
    requires 0 <= i < |cs| && QSum(cs[..i], y) == Ok(q)
    ensures QSum(cs[..i + 1], y) == match PSubAbove(cs[i].shape, y - cs[i].y)
                                    case Err(e) => Err(e)
                                    case Ok(sub) => Ok(q + PieceMoment(sub))
  {
    assert cs[..i + 1][..i] == cs[..i];
  }

  /** An error in a prefix of the q fold is the error of the whole fold. */
  lemma {:induction false} PrefixErr(cs: seq<Placed>, y: real, k: int)
    requires 0 < k <= |cs| && QSum(cs[..k], y).Err?
    ensures QSum(cs, y) == QSum(cs[..k], y)
    decreases |cs| - k
  {
    if k < |cs| {
      assert cs[..k + 1][..k] == cs[..k];
      PrefixErr(cs, y, k + 1);
    } else {
      assert cs[..k] == cs;
    }
  }

  /** An error in a prefix of the piece fold is the error of the whole fold. */
  lemma {:induction false} SubPrefixErr(cs: seq<Placed>, y: real, k: int)
    requires 0 < k <= |cs| && SubParts(cs[..k], y).Err?
    ensures SubParts(cs, y) == SubParts(cs[..k], y)
    decreases |cs| - k
  {
    if k < |cs| {
      assert cs[..k + 1][..k] == cs[..k];
      SubPrefixErr(cs, y, k + 1);
    } else {
      assert cs[..k] == cs;
    }
  }

  /** sub_above of a composite: a loop collecting the pieces above the cut. */
  method ComputeSubAbove(parts: seq<Placed>, kind: Kind, y: real) returns (r: Result<Section>)
    ensures r == SubAbove(Composite(parts, kind), y)
  {
    var sel := SelectComponentsAbove(Composite(parts, kind), y);
    if sel.Err? {
      return Err(sel.error);
    }
    var cs := sel.value;
    var pieces: seq<Placed> := [];
    var i := 0;
    while i < |cs|
      invariant 0 <= i <= |cs|
      invariant SubParts(cs[..i], y) == Ok(pieces)
    {
      var c := cs[i];
      assert cs[..i + 1][..i] == cs[..i] && cs[..i + 1][i] == c;
      var relativeY := y - c.y;
      if relativeY < 0.0 {
        assert false;
      }
      var sub := PSubAbove(c.shape, relativeY);
      if sub.Err? {
        assert SubParts(cs[..i + 1], y).Err?;
        SubPrefixErr(cs, y, i + 1);
        return Err(sub.error);
      }
      pieces := pieces + [Placed(sub.value, c.x, 0.0)];
      i := i + 1;
    }
    assert cs[..i] == cs;
    if kind.PlainKind? {
      r := Ok(Composite(pieces, PlainKind));
    } else {
      r := Err(TypeError);
    }
  }

  // ---------------------------------------------------------------------
  // Presets

  function HollowParts(b: real, h: real, thickness: real): seq<Placed>
  {
    [ Placed(Rect(b, thickness), 0.0, 0.0),
      Placed(Rect(thickness, h - 2.0 * thickness), 0.0, thickness),
      Placed(Rect(thickness, h - 2.0 * thickness), b - thickness, thickness),
      Placed(Rect(b, thickness), 0.0, h - thickness) ]
  }

  function HollowBeam(b: real, h: real, thickness: real): Section
  {
    Composite(HollowParts(b, h, thickness), HollowKind(b, h, thickness))
  }

  function IBeamParts(d: real, bf: real, t: real, bw: real): seq<Placed>
  {
    [ Placed(Rect(bf, t), 0.0, 0.0),
      Placed(Rect(bw, d - 2.0 * t), 0.5 * (bf - bw), t),
      Placed(Rect(bf, t), 0.0, d - t) ]
  }

  function IBeam(d: real, bf: real, t: real, bw: real): Section
  {
    Composite(IBeamParts(d, bf, t, bw), IBeamKind(d, bf, t, bw))
  }

  /** The course girder: a deck, two glue tabs, two webs and a bottom flange.
      The deck is a fixed 100 x 1.27 plate whatever the arguments are. */
  function GirderParts(top: real, bottom: real, height: real, thickness: real, outreach: real): seq<Placed>
  {
    var left := (top - bottom) * 0.5;
    var right := (top + bottom) * 0.5;
    [ Placed(Rect(100.0, 1.27), 0.0, height),
      Placed(Rect(outreach, thickness), left + thickness, height - thickness),
      Placed(Rect(outreach, thickness), right - thickness - outreach, height - thickness),
      Placed(Rect(thickness, height - thickness), left, thickness),
      Placed(Rect(thickness, height - thickness), right - thickness, thickness),
      Placed(Rect(bottom, thickness), left, 0.0) ]
  }

  function CIV102Beam(top: real, bottom: real, height: real, thickness: real, outreach: real, glue: bool): Section
  {
    Composite(GirderParts(top, bottom, height, thickness, outreach),
              GirderKind(top, bottom, height, thickness, outreach, glue))
  }

  /** The girder's default arguments. */
  function DefaultCIV102Beam(): Section
  {
    CIV102Beam(100.0, 80.0, 75.0, 1.27, 5.0, true)
  }

  /** A section as one of the classes can build it: a preset's parts are the
      ones its constructor lays out. */
  predicate WellFormed(s: Section)
  {
    match s
    case Prim(_) => true
    case Composite(parts, kind) =>
      match kind
      case PlainKind => true
      case HollowKind(b, h, t) => parts == HollowParts(b, h, t)
      case IBeamKind(d, bf, t, bw) => parts == IBeamParts(d, bf, t, bw)
      case GirderKind(top, bottom, height, t, o, _) => parts == GirderParts(top, bottom, height, t, o)
  }

  // ---------------------------------------------------------------------
  // Keyword arguments

  /** A keyword of a section: a constructor parameter, or a child's parameter
      tagged with the child's offset (the source formats it as "b(x, y)"). */
  datatype Key = Name(name: string) | At(name: string, x: real, y: real)

  type KwargMap = map<Key, real>

  function PKwargs(p: Primitive): KwargMap
  {
    match p
    case Rect(b, h) => map[Name("b") := b, Name("h") := h]
    case Circle(r) => map[Name("r") := r]
  }

  function TaggedKwargs(c: Placed): KwargMap
  {
    match c.shape
    case Rect(b, h) => map[At("b", c.x, c.y) := b, At("h", c.x, c.y) := h]
    case Circle(r) => map[At("r", c.x, c.y) := r]
  }

  /** dict.update over the children in order: a later child wins a clash. */
  function MergedKwargs(parts: seq<Placed>): KwargMap
  {
    if parts == [] then map[]
    else MergedKwargs(parts[..|parts| - 1]) + TaggedKwargs(parts[|parts| - 1])
  }

  function Kwargs(s: Section): KwargMap
  {
    match s
    case Prim(p) => PKwargs(p)
    case Composite(parts, kind) =>
      match kind
      case PlainKind => MergedKwargs(parts)
      case HollowKind(b, h, t) => map[Name("b") := b, Name("h") := h, Name("thickness") := t]
      case IBeamKind(d, bf, t, bw) => map[Name("d") := d, Name("bf") := bf, Name("t") := t, Name("bw") := bw]
      case GirderKind(top, bottom, height, t, o, glue) =>
        var base := map[Name("top") := top, Name("bottom") := bottom, Name("height") := height,
                        Name("thickness") := t, Name("outreach") := o];
        if glue then base[Name("glue_y") := height] else base
  }

  datatype SectionType = RectType | CircleType | ComplexType | HollowType | IBeamType | GirderType

  /** The class of a section (Python's obj.__class__). */
  function TypeOf(s: Section): SectionType
  {
    match s
    case Prim(Rect(_, _)) => RectType
    case Prim(Circle(_)) => CircleType
    case Composite(_, PlainKind) => ComplexType
    case Composite(_, HollowKind(_, _, _)) => HollowType
    case Composite(_, IBeamKind(_, _, _, _)) => IBeamType
    case Composite(_, GirderKind(_, _, _, _, _, _)) => GirderType
  }

  function Arg(kw: KwargMap, name: string, default: real): real
  {
    if Name(name) in kw then kw[Name(name)] else default
  }

  function GirderParams(): set<Key>
  {
    {Name("top"), Name("bottom"), Name("height"), Name("thickness"), Name("outreach"), Name("glue")}
  }

  /** cls(**kw): the keyword binding of each constructor. A missing required
      argument or an unexpected keyword is a TypeError; the composite class
      takes its children positionally, so keywords never build it. */
  function FromKwargs(t: SectionType, kw: KwargMap): (r: Result<Section>)
    ensures r.Err? ==> r.error == TypeError
    ensures r.Ok? ==> TypeOf(r.value) == t && WellFormed(r.value)
  {
    match t
    case RectType =>
      if kw.Keys == {Name("b"), Name("h")} then Ok(Prim(Rect(kw[Name("b")], kw[Name("h")]))) else Err(TypeError)
    case CircleType =>
      if kw.Keys == {Name("r")} then Ok(Prim(Circle(kw[Name("r")]))) else Err(TypeError)
    case ComplexType => Err(TypeError)
    case HollowType =>
      if kw.Keys == {Name("b"), Name("h"), Name("thickness")}
      then Ok(HollowBeam(kw[Name("b")], kw[Name("h")], kw[Name("thickness")]))
      else Err(TypeError)
    case IBeamType =>
      if kw.Keys == {Name("d"), Name("bf"), Name("t"), Name("bw")}
      then Ok(IBeam(kw[Name("d")], kw[Name("bf")], kw[Name("t")], kw[Name("bw")]))
      else Err(TypeError)
    case GirderType =>
      if kw.Keys <= GirderParams()
      then Ok(CIV102Beam(Arg(kw, "top", 100.0), Arg(kw, "bottom", 80.0), Arg(kw, "height", 75.0),
                         Arg(kw, "thickness", 1.27), Arg(kw, "outreach", 5.0),
                         Name("glue") !in kw || kw[Name("glue")] != 0.0))
      else Err(TypeError)
  }

  /** Rebuilding a section from its own keyword arguments: the primitives, the
      hollow box and the I-beam come back unchanged; a girder comes back glued
      when it was not, and fails when it was (glue_y is no parameter of the
      constructor); a plain composite never comes back. */
  lemma KwargsRoundTrip(s: Section)
    requires WellFormed(s)
    ensures s.Prim? || s.kind.HollowKind? || s.kind.IBeamKind? ==> FromKwargs(TypeOf(s), Kwargs(s)) == Ok(s)
    ensures s.Composite? && s.kind.PlainKind? ==> FromKwargs(TypeOf(s), Kwargs(s)) == Err(TypeError)
    ensures s.Composite? && s.kind.GirderKind? && s.kind.glue ==> FromKwargs(TypeOf(s), Kwargs(s)) == Err(TypeError)
    ensures s.Composite? && s.kind.GirderKind? && !s.kind.glue ==>
      FromKwargs(TypeOf(s), Kwargs(s)) == Ok(s.(kind := s.kind.(glue := true)))
  {
    match s
    case Prim(p) =>
      match p {
        case Rect(b, h) => assert PKwargs(p).Keys == {Name("b"), Name("h")};
        case Circle(r) => assert PKwargs(p).Keys == {Name("r")};
      }
    case Composite(parts, kind) =>
      match kind {
        case PlainKind =>
        case HollowKind(b, h, t) =>
          assert Kwargs(s).Keys == {Name("b"), Name("h"), Name("thickness")};
        case IBeamKind(d, bf, t, bw) =>
          assert Kwargs(s).Keys == {Name("d"), Name("bf"), Name("t"), Name("bw")};
        case GirderKind(top, bottom, height, t, o, glue) =>
          if glue {
            assert Name("glue_y") in Kwargs(s);
            assert Name("glue_y") !in GirderParams();
          } else {
            assert Kwargs(s).Keys <= GirderParams();
          }
      }
  }

  /** glue_y is no keyword of the girder class. */
  lemma GlueYRejected(kw: KwargMap)
    requires Name("glue_y") in kw
    ensures FromKwargs(GirderType, kw) == Err(TypeError)
  {
    assert Name("glue_y") !in GirderParams();
  }

  /** The presets' fixed rules: the narrowest width, the keyword sets, and the
      girder's deck. */
  lemma PresetFacts(b: real, h: real, d: real, bf: real, t: real, bw: real,
                    top: real, bottom: real, height: real, outreach: real, glue: bool)
    ensures MinWidth(HollowBeam(b, h, t)) == Ok(2.0 * t)
    ensures MinWidth(IBeam(d, bf, t, bw)) == Ok(bw)
    ensures MinWidth(CIV102Beam(top, bottom, height, t, outreach, glue)) == Ok(2.0 * t)
    ensures Kwargs(HollowBeam(b, h, t)).Keys == {Name("b"), Name("h"), Name("thickness")}
    ensures Kwargs(IBeam(d, bf, t, bw)).Keys == {Name("d"), Name("bf"), Name("t"), Name("bw")}
    ensures (Name("glue_y") in Kwargs(CIV102Beam(top, bottom, height, t, outreach, glue))) <==> glue
    ensures CIV102Beam(top, bottom, height, t, outreach, glue).parts[0] == Placed(Rect(100.0, 1.27), 0.0, height)
  {
  }

  // ---------------------------------------------------------------------
  // Properties of composites

  /** A composite of one child at the origin reproduces that child. */
  lemma SingleChild(p: Primitive)
    ensures Area(Composite([Placed(p, 0.0, 0.0)], PlainKind)) == PArea(p)
    ensures Width(Composite([Placed(p, 0.0, 0.0)], PlainKind)) == Ok(PWidth(p))
    ensures Height(Composite([Placed(p, 0.0, 0.0)], PlainKind)) == Ok(PHeight(p))
    ensures MinWidth(Composite([Placed(p, 0.0, 0.0)], PlainKind)) == Ok(PWidth(p))
    ensures PArea(p) != 0.0 ==> Centroid(Composite([Placed(p, 0.0, 0.0)], PlainKind)) == Ok(PCentroid(p))
    ensures PArea(p) != 0.0 ==> Inertia(Composite([Placed(p, 0.0, 0.0)], PlainKind)) == Ok(PInertia(p))
    ensures PArea(p) == 0.0 ==> Centroid(Composite([Placed(p, 0.0, 0.0)], PlainKind)) == Err(ZeroDivisionError)
  {
    var c := Placed(p, 0.0, 0.0);
    var parts := [c];
    assert parts[..0] == [];
    var a := PArea(p);
    assert AreaSum(parts) == a;
    if a != 0.0 {
      var cx, cy := PCentroid(p).0, PCentroid(p).1;
      assert FirstMoment(parts, X) == a * cx;
      assert FirstMoment(parts, Y) == a * cy;
      assert (a * cx) / a == cx;
      assert (a * cy) / a == cy;
      assert DSquared(cy, c) == 0.0;
      assert ParallelAxisSum(parts, cy) == PInertia(p) + a * 0.0;
    }
  }

  /** With non-negative child areas the parallel-axis terms only add: the
      composite's second moment is at least the sum of the children's. */
  lemma {:induction false} ParallelAxisBound(parts: seq<Placed>, ybar: real)
    requires forall i :: 0 <= i < |parts| ==> PArea(parts[i].shape) >= 0.0
    ensures ParallelAxisSum(parts, ybar) >= InertiaSum(parts)
  {
    if parts != [] {
      var n := |parts| - 1;
      var c := parts[n];
      assert forall i :: 0 <= i < n ==> parts[..n][i] == parts[i];
      ParallelAxisBound(parts[..n], ybar);
      var dy := ybar - c.y - PCentroid(c.shape).1;
      assert DSquared(ybar, c) == dy * dy >= 0.0;
      MulNonneg(PArea(c.shape), DSquared(ybar, c));
    }
  }

  predicate AllRects(parts: seq<Placed>)
  {
    forall i :: 0 <= i < |parts| ==> parts[i].shape.Rect?
  }

  predicate AllCross(cs: seq<Placed>, y: real)
  {
    forall i :: 0 <= i < |cs| ==> Crosses(cs[i], y)
  }

  /** Sum of the children's own q at their cut heights. */
  function ChildQTotal(cs: seq<Placed>, y: real): real
    requires AllCross(cs, y)
  {
    if cs == [] then 0.0
    else
      var c := cs[|cs| - 1];
      assert Crosses(c, y);
      ChildQTotal(cs[..|cs| - 1], y) + PQ(c.shape, y - c.y).value
  }

  lemma {:induction false} QSumIsChildQ(cs: seq<Placed>, y: real)
    requires AllRects(cs) && AllCross(cs, y)
    ensures QSum(cs, y) == Ok(ChildQTotal(cs, y))
  {
    if cs != [] {
      var n := |cs| - 1;
      var c := cs[n];
      assert forall i :: 0 <= i < n ==> cs[..n][i] == cs[i];
      QSumIsChildQ(cs[..n], y);
      assert Crosses(c, y) && c.shape.Rect?;
      RectCutQueries(c.shape.b, c.shape.h, y - c.y);
    }
  }

  /** For a composite of rectangles, q is the sum of q of the children that the
      cut line crosses, each at its own relative height. */
  lemma QOfRectComposite(parts: seq<Placed>, kind: Kind, y: real)
    requires AllRects(parts) && CheckY(Composite(parts, kind), y).Ok?
    ensures AllCross(Crossed(parts, y), y)
    ensures Q(Composite(parts, kind), y) == Ok(ChildQTotal(Crossed(parts, y), y))
  {
    var cs := Crossed(parts, y);
    forall i | 0 <= i < |cs| ensures cs[i].shape.Rect? {
      assert cs[i] in cs;
    }
    QSumIsChildQ(cs, y);
  }

  lemma {:induction false} SubPartsArea(cs: seq<Placed>, y: real)
    requires AllRects(cs) && AllCross(cs, y)
    ensures SubParts(cs, y).Ok? && AreaAboveSum(cs, y).Ok?
    ensures AreaSum(SubParts(cs, y).value) == AreaAboveSum(cs, y).value
  {
    if cs != [] {
      var n := |cs| - 1;
      var c := cs[n];
      assert forall i :: 0 <= i < n ==> cs[..n][i] == cs[i];
      SubPartsArea(cs[..n], y);
      assert Crosses(c, y) && c.shape.Rect?;
      RectPiece(c, y);
      var acc := SubParts(cs[..n], y).value;
      var piece := Placed(Rect(c.shape.b, c.shape.h - (y - c.y)), c.x, 0.0);
      assert SubParts(cs, y) == Ok(acc + [piece]);
      assert (acc + [piece])[..|acc|] == acc;
    }
  }

  /** A rectangle crossed by the cut yields one rectangle piece, whose area is
      the rectangle's area above the cut. */
  lemma RectPiece(c: Placed, y: real)
    requires Crosses(c, y) && c.shape.Rect?
    ensures PSubAbove(c.shape, y - c.y) == Ok(Rect(c.shape.b, c.shape.h - (y - c.y)))
    ensures PAreaAbove(c.shape, Max2(y - c.y, 0.0)) == Ok(PArea(Rect(c.shape.b, c.shape.h - (y - c.y))))
  {
    var t := y - c.y;
    assert Max2(t, 0.0) == t && PInRange(c.shape, t);
    assert PAreaAbove(c.shape, t).value == c.shape.b * (c.shape.h - t);
    assert PArea(Rect(c.shape.b, c.shape.h - t)) == c.shape.b * (c.shape.h - t);
  }

  /** For a plain composite of rectangles, the section above the cut has
      exactly the area that area_above reports. */
  lemma SubAboveArea(parts: seq<Placed>, y: real)
    requires AllRects(parts) && CheckY(Composite(parts, PlainKind), y).Ok?
    ensures SubAbove(Composite(parts, PlainKind), y).Ok? && AreaAbove(Composite(parts, PlainKind), y).Ok?
    ensures Area(SubAbove(Composite(parts, PlainKind), y).value) == AreaAbove(Composite(parts, PlainKind), y).value
  {
    var cs := Crossed(parts, y);
    forall i | 0 <= i < |cs| ensures cs[i].shape.Rect? {
      assert cs[i] in cs;
    }
    SubPartsArea(cs, y);
  }

  lemma {:induction false} CircleInFold(cs: seq<Placed>, y: real, k: int)
    requires AllCross(cs, y) && 0 <= k < |cs| && cs[k].shape.Circle?
    ensures QSum(cs, y) == Err(NotImplementedError)
    ensures SubParts(cs, y) == Err(NotImplementedError)
  {
    var n := |cs| - 1;
    assert forall i :: 0 <= i < n ==> cs[..n][i] == cs[i];
    if k < n {
      CircleInFold(cs[..n], y, k);
    } else {
      FoldErrKind(cs[..n], y);
    }
  }

  /** The folds over crossed children can only fail on a circle. */
  lemma {:induction false} FoldErrKind(cs: seq<Placed>, y: real)
    requires AllCross(cs, y)
    ensures QSum(cs, y).Err? ==> QSum(cs, y).error == NotImplementedError
    ensures SubParts(cs, y).Err? ==> SubParts(cs, y).error == NotImplementedError
  {
    if cs != [] {
      var n := |cs| - 1;
      assert forall i :: 0 <= i < n ==> cs[..n][i] == cs[i];
      FoldErrKind(cs[..n], y);
      assert Crosses(cs[n], y);
    }
  }

  /** A circle crossed by the cut line makes q and sub_above of the composite
      fail: a circle has no sub-section above a cut. */
  lemma CircleCrossingFails(parts: seq<Placed>, kind: Kind, y: real, k: int)
    requires CheckY(Composite(parts, kind), y).Ok?
    requires 0 <= k < |parts| && parts[k].shape.Circle? && Crosses(parts[k], y)
    ensures Q(Composite(parts, kind), y) == Err(NotImplementedError)
    ensures SubAbove(Composite(parts, kind), y) == Err(NotImplementedError)
  {
    var cs := Crossed(parts, y);
    assert parts[k] in cs;
    var j :| 0 <= j < |cs| && cs[j] == parts[k];
    CircleInFold(cs, y, j);
  }

  lemma AreaSum3(c0: Placed, c1: Placed, c2: Placed)
    ensures AreaSum([c0, c1, c2]) == PArea(c0.shape) + PArea(c1.shape) + PArea(c2.shape)
  {
    assert [c0, c1, c2][..2] == [c0, c1] && [c0, c1][..1] == [c0] && [c0][..0] == [];
    assert AreaSum([c0]) == PArea(c0.shape);
    assert AreaSum([c0, c1]) == PArea(c0.shape) + PArea(c1.shape);
  }

  lemma FirstMoment3(c0: Placed, c1: Placed, c2: Placed, axis: Axis)
    ensures FirstMoment([c0, c1, c2], axis)
      == PArea(c0.shape) * (Along(PCentroid(c0.shape), axis) + Offset(c0, axis))
       + PArea(c1.shape) * (Along(PCentroid(c1.shape), axis) + Offset(c1, axis))
       + PArea(c2.shape) * (Along(PCentroid(c2.shape), axis) + Offset(c2, axis))
  {
    assert [c0, c1, c2][..2] == [c0, c1] && [c0, c1][..1] == [c0] && [c0][..0] == [];
    var m0 := PArea(c0.shape) * (Along(PCentroid(c0.shape), axis) + Offset(c0, axis));
    var m1 := PArea(c1.shape) * (Along(PCentroid(c1.shape), axis) + Offset(c1, axis));
    assert FirstMoment([c0], axis) == m0;
    assert FirstMoment([c0, c1], axis) == m0 + m1;
  }

  lemma IBeamMomentAlgebra(d: real, bf: real, t: real, bw: real)
    ensures (bf * t) * (bf * 0.5 + 0.0) + (bw * (d - 2.0 * t)) * (bw * 0.5 + 0.5 * (bf - bw))
            + (bf * t) * (bf * 0.5 + 0.0)
         == (bf * t + bw * (d - 2.0 * t) + bf * t) * (bf / 2.0)
    ensures (bf * t) * (t * 0.5 + 0.0) + (bw * (d - 2.0 * t)) * ((d - 2.0 * t) * 0.5 + t)
            + (bf * t) * (t * 0.5 + (d - t))
         == (bf * t + bw * (d - 2.0 * t) + bf * t) * (d / 2.0)
  {
  }

  /** The I-beam's total area. */
  lemma IBeamArea(d: real, bf: real, t: real, bw: real)
    ensures Area(IBeam(d, bf, t, bw)) == 2.0 * bf * t + bw * (d - 2.0 * t)
  {
    var parts := IBeamParts(d, bf, t, bw);
    AreaSum3(parts[0], parts[1], parts[2]);
  }

  /** The I-beam spans its full depth and its flange width. */
  lemma IBeamExtent(d: real, bf: real, t: real, bw: real)
    requires 0.0 <= t && 2.0 * t <= d && bw <= bf
    ensures Height(IBeam(d, bf, t, bw)) == Ok(d)
    ensures Width(IBeam(d, bf, t, bw)) == Ok(bf)
  {
    var parts := IBeamParts(d, bf, t, bw);
    var e := Tops(parts);
    assert e[0] == t && e[1] == d - 2.0 * t + t && e[2] == t + (d - t);
    var w := Extents(parts);
    assert w[0] == bf && w[1] == bw + 0.5 * (bf - bw) && w[2] == bf;
  }

  /** The I-beam's centroid sits at mid-width and mid-depth. */
  lemma IBeamCentroid(d: real, bf: real, t: real, bw: real)
    requires AreaSum(IBeamParts(d, bf, t, bw)) != 0.0
    ensures Centroid(IBeam(d, bf, t, bw)) == Ok((bf / 2.0, d / 2.0))
  {
    var parts := IBeamParts(d, bf, t, bw);
    AreaSum3(parts[0], parts[1], parts[2]);
    FirstMoment3(parts[0], parts[1], parts[2], X);
    FirstMoment3(parts[0], parts[1], parts[2], Y);
    IBeamMomentAlgebra(d, bf, t, bw);
    DivExact(FirstMoment(parts, X), AreaSum(parts), bf / 2.0);
    DivExact(FirstMoment(parts, Y), AreaSum(parts), d / 2.0);
  }
}
