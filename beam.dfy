/** A simply supported beam bridge carrying a train of point loads: reactions,
    the shear and bending-moment diagrams, and the stresses and safety factors
    they produce in a cross-section. */
module Beam {
  import opened Common
  import opened Geometry

  const DefaultLength: real := 1200.0
  const DefaultWheels: seq<real> := [172.0, 348.0, 512.0, 688.0, 852.0, 1028.0]
  const DefaultDistribution: seq<real> := [1.35, 1.35, 1.0, 1.0, 1.0, 1.0]

  /** The default train meets the bridge's preconditions: one load share
      per wheel, with a non-zero total, and its wheels stand in increasing
      order strictly inside the default span. */
  lemma DefaultTrain()
    ensures |DefaultWheels| == |DefaultDistribution| && Sum(DefaultDistribution) == 6.7
    ensures Sorted(DefaultWheels)
    ensures forall i :: 0 <= i < |DefaultWheels| ==> 0.0 < DefaultWheels[i] < DefaultLength
  {
    var d := DefaultDistribution;
    assert d[..1][..0] == [] && d[..2][..1] == d[..1] && d[..3][..2] == d[..2];
    assert d[..4][..3] == d[..3] && d[..5][..4] == d[..4] && d[..5] == d[..|d| - 1];
    assert Sum(d[..1]) == 1.35;
    assert Sum(d[..2]) == 2.7;
    assert Sum(d[..3]) == 3.7;
    assert Sum(d[..4]) == 4.7;
    assert Sum(d[..5]) == 5.7;
  }

  /** The load distribution divided by its sum. */
  function Normalize(ld: seq<real>): (d: seq<real>)
    requires Sum(ld) != 0.0
    ensures Sum(d) == 1.0
  {
    SumScale(ld, 1.0 / Sum(ld));
    Scale(ld, 1.0 / Sum(ld))
  }

  // ---------------------------------------------------------------------
  // Reactions and the shear diagram

  /** Support reactions (start, end): the end reaction balances the moment of
      the wheel loads about the start support; the division by the length
      raises on a zero span. */
  function Reactions(load: real, wheels: seq<real>, loads: seq<real>, length: real): (r: Result<(real, real)>)
    requires |wheels| == |loads|
    ensures r.Err? <==> length == 0.0
    ensures r.Err? ==> r.error == ZeroDivisionError
    ensures r.Ok? ==> r.value.0 + r.value.1 == load
    ensures r.Ok? ==> r.value.1 * length == Dot(wheels, loads)
  {
    if length == 0.0 then Err(ZeroDivisionError)
    else
      var rEnd := Dot(wheels, loads) / length;
      Ok((load - rEnd, rEnd))
  }

  /** Shear just right of the start support and of each of the first n wheels. */
  function ShearSteps(rStart: real, loads: seq<real>, n: nat): (v: seq<real>)
    requires n <= |loads|
    ensures |v| == n + 1
  {
    seq(n + 1, k requires 0 <= k <= n => rStart - Sum(loads[..k]))
  }

  /** The shear list: one entry per span between supports and wheels, then
      the end reaction added back. */
  function ShearDiagram(rStart: real, rEnd: real, loads: seq<real>): (v: seq<real>)
    ensures |v| == |loads| + 2
  {
    ShearSteps(rStart, loads, |loads|) + [rStart - Sum(loads) + rEnd]
  }

  function Shear(load: real, wheels: seq<real>, loads: seq<real>, length: real): (r: Result<seq<real>>)
    requires |wheels| == |loads|
    ensures r.Ok? ==> |r.value| == |loads| + 2
  {
    match Reactions(load, wheels, loads, length)
    case Err(e) => Err(e)
    case Ok(rs) => Ok(ShearDiagram(rs.0, rs.1, loads))
  }

  // ---------------------------------------------------------------------
  // Bending moments

  /** Support, wheel and support positions. */
  function Positions(wheels: seq<real>, length: real): (p: seq<real>)
    ensures |p| == |wheels| + 2
  {
    [0.0] + wheels + [length]
  }

  /** Rectangle-rule integral of the shear v over the first j intervals of p. */
  function Integral(v: seq<real>, p: seq<real>, j: nat): real
    requires j < |p| <= |v|
  {
    if j == 0 then 0.0 else Integral(v, p, j - 1) + Times(v[j - 1], p[j] - p[j - 1])
  }

  /** The moment list: the running integral at every position. */
  function Moments(v: seq<real>, p: seq<real>): (m: seq<real>)
    requires |p| == |v|
    ensures |m| == |p|
  {
    seq(|p|, j requires 0 <= j < |p| => Integral(v, p, j))
  }

  function Bending(load: real, wheels: seq<real>, loads: seq<real>, length: real): (r: Result<seq<real>>)
    requires |wheels| == |loads|
    ensures r.Ok? ==> |r.value| == |loads| + 2
  {
    match Shear(load, wheels, loads, length)
    case Err(e) => Err(e)
    case Ok(v) => Ok(Moments(v, Positions(wheels, length)))
  }

  // ---------------------------------------------------------------------
  // Expanded diagrams on a grid of positions

  /** Index of the last wheel strictly left of t, or -1. */
  function LastBelow(wheels: seq<real>, t: real): (r: int)
    ensures -1 <= r < |wheels|
    ensures r >= 0 ==> wheels[r] < t
    ensures forall i :: r < i < |wheels| ==> t <= wheels[i]
  {
    if wheels == [] then -1
    else if t > wheels[|wheels| - 1] then |wheels| - 1
    else LastBelow(wheels[..|wheels| - 1], t)
  }

  /** The shear at t: after the last wheel left of t, the end value beyond the span. */
  function ShearAt(v0: seq<real>, wheels: seq<real>, length: real, t: real): real
    requires |v0| == |wheels| + 2
  {
    if t > length then v0[|v0| - 1] else v0[LastBelow(wheels, t) + 1]
  }

  function ExpandedShear(v0: seq<real>, wheels: seq<real>, length: real, x: seq<real>): (v: seq<real>)
    requires |v0| == |wheels| + 2
    ensures |v| == |x|
  {
    seq(|x|, j requires 0 <= j < |x| => ShearAt(v0, wheels, length, x[j]))
  }

  predicate Sorted(s: seq<real>)
  {
    forall i, j :: 0 <= i <= j < |s| ==> s[i] <= s[j]
  }

  // ---------------------------------------------------------------------
  // Grid

  predicate IsInteger(n: real) { n == n.Floor as real }

  /** numpy's linspace(a, b, num). */
  function Linspace(a: real, b: real, num: nat): (r: seq<real>)
    ensures |r| == num
  {
    if num == 1 then [a]
    else seq(num, k requires 0 <= k < num => a + (b - a) * (k as real) / ((num - 1) as real))
  }

  /** Grid of length / dx points from 0 to the length; dx must divide the
      length into a non-negative whole number of points. */
  function XLinespace(length: real, dx: real): (r: Result<seq<real>>)
    ensures r.Ok? <==> dx != 0.0 && IsInteger(length / dx) && length / dx >= 0.0
    ensures dx == 0.0 ==> r == Err(ZeroDivisionError)
    ensures dx != 0.0 && r.Err? ==> r.error == ValueError
    ensures r.Ok? ==> |r.value| as real == length / dx
    ensures r.Ok? && |r.value| > 0 ==> r.value[0] == 0.0
    ensures r.Ok? && |r.value| > 1 ==> r.value[|r.value| - 1] == length
  {
    if dx == 0.0 then Err(ZeroDivisionError)
    else
      var n := length / dx;
      if !IsInteger(n) then Err(ValueError)
      else if n < 0.0 then Err(ValueError)
      else Ok(Linspace(0.0, length, n.Floor))
  }

  // ---------------------------------------------------------------------
  // Stresses and safety factors

  /** max(|max m|, |min m|): the largest magnitude in m. */
  function Peak(m: seq<real>): (r: real)
    requires |m| > 0
    ensures forall i :: 0 <= i < |m| ==> Abs(m[i]) <= r
    ensures exists i :: 0 <= i < |m| && Abs(m[i]) == r
  {
    Max2(Abs(Max(m)), Abs(Min(m)))
  }

  /** Flexural stresses (compressive at the top, tensile at the bottom) for
      the peak moment mMax; the section queries run in the source's order. */
  function Stresses(cs: Section, mMax: real): (r: Result<(real, real)>)
  {
    StressesFrom(Inertia(cs), Height(cs), Centroid(cs), mMax)
  }

  /** The stresses from the section's inertia, height and centroid, the first
      failing query deciding the error. */
  function StressesFrom(inertia: Result<real>, height: Result<real>, centroid: Result<(real, real)>, mMax: real): (r: Result<(real, real)>)
  {
    match inertia
    case Err(e) => Err(e)
    case Ok(i) =>
      match height
      case Err(e) => Err(e)
      case Ok(h) =>
        match centroid
        case Err(e) => Err(e)
        case Ok(c) =>
          if i == 0.0 then Err(ZeroDivisionError)
          else Ok((Over(Times(mMax, h - c.1), i), Over(Times(mMax, c.1), i)))
  }

  function UltimateStress(cs: Section, load: real, wheels: seq<real>, loads: seq<real>, length: real): (r: Result<(real, real)>)
    requires |wheels| == |loads|
  {
    match Bending(load, wheels, loads, length)
    case Err(e) => Err(e)
    case Ok(m) => Stresses(cs, Peak(m))
  }

  /** Shear stress v_max * Q / I / b for the peak shear vMax. */
  function ShearStress(cs: Section, vMax: real): (r: Result<real>)
  {
    ShearStressFrom(QMax(cs), Inertia(cs), MinWidth(cs), vMax)
  }

  function ShearStressFrom(qMax: Result<real>, inertia: Result<real>, minWidth: Result<real>, vMax: real): (r: Result<real>)
  {
    match qMax
    case Err(e) => Err(e)
    case Ok(q) =>
      match inertia
      case Err(e) => Err(e)
      case Ok(i) =>
        match minWidth
        case Err(e) => Err(e)
        case Ok(b) =>
          if i == 0.0 || b == 0.0 then Err(ZeroDivisionError)
          else Ok(Over(Over(Times(vMax, q), i), b))
  }

  function UltimateShearStress(cs: Section, load: real, wheels: seq<real>, loads: seq<real>, length: real): (r: Result<real>)
    requires |wheels| == |loads|
  {
    match Shear(load, wheels, loads, length)
    case Err(e) => Err(e)
    case Ok(v) => ShearStress(cs, Peak(v))
  }

  /** Safe stress over applied stress, componentwise (compressive, tensile). */
  function SafetyFactor(safe: (real, real), stress: Result<(real, real)>): (r: Result<(real, real)>)
  {
    match stress
    case Err(e) => Err(e)
    case Ok(s) =>
      if s.0 == 0.0 || s.1 == 0.0 then Err(ZeroDivisionError)
      else Ok((Over(safe.0, s.0), Over(safe.1, s.1)))
  }

  function ShearSafetyFactor(safe: real, stress: Result<real>): (r: Result<real>)
  {
    match stress
    case Err(e) => Err(e)
    case Ok(s) => if s == 0.0 then Err(ZeroDivisionError) else Ok(Over(safe, s))
  }

  lemma MomentsAppend(v: seq<real>, p: seq<real>, i: int)
    requires |v| == |p| && 1 <= i < |p|
    ensures Moments(v[..i + 1], p[..i + 1])
         == Moments(v[..i], p[..i]) + [Moments(v[..i], p[..i])[i - 1] + Times(v[i - 1], p[i] - p[i - 1])]
  {
    var a, b := Moments(v[..i + 1], p[..i + 1]), Moments(v[..i], p[..i]);
    forall j | 0 <= j < i
      ensures a[j] == b[j]
    {
      IntegralPrefix(v, p, j, i);
      IntegralPrefix(v, p, j, i + 1);
    }
    IntegralPrefix(v, p, i, i + 1);
    IntegralPrefix(v, p, i - 1, i);
    assert a[i] == b[i - 1] + Times(v[i - 1], p[i] - p[i - 1]);
  }

  /** The integral up to j reads only the first n entries. */
  lemma {:induction false} IntegralPrefix(v: seq<real>, p: seq<real>, j: nat, n: nat)
    requires j < n <= |p| <= |v|
    ensures Integral(v[..n], p[..n], j) == Integral(v, p, j)
  {
    if j > 0 {
      IntegralPrefix(v, p, j - 1, n);
    }
  }

  /** numpy's v[x > t] = value on an array. */
  method MaskAssign(v: array<real>, x: seq<real>, t: real, value: real)
    requires v.Length == |x|
    modifies v
    ensures v[..] == Masked(old(v[..]), x, t, value)
  {
    var k := 0;
    while k < |x|
      invariant 0 <= k <= |x|
      invariant forall j :: 0 <= j < k ==> v[j] == (if x[j] > t then value else old(v[j]))
      invariant forall j :: k <= j < |x| ==> v[j] == old(v[j])
    {
      if x[k] > t {
        v[k] := value;
      }
      k := k + 1;
    }
    assert forall j :: 0 <= j < |x| ==> v[..][j] == Masked(old(v[..]), x, t, value)[j];
  }

  /** s with every position of x beyond t set to value (numpy's masked
      assignment v[x > t] = value). */
  function Masked(s: seq<real>, x: seq<real>, t: real, value: real): (r: seq<real>)
    requires |s| == |x|
    ensures |r| == |x|
  {
    seq(|x|, j requires 0 <= j < |x| => if x[j] > t then value else s[j])
  }

  /** The expanded shear after the masks of the wheels ws, before the one
      at the span's end: each position takes the value after the last of
      those wheels left of it. */
  function FilledBy(v0: seq<real>, ws: seq<real>, x: seq<real>): (r: seq<real>)
    requires |v0| > |ws|
    ensures |r| == |x|
  {
    seq(|x|, j requires 0 <= j < |x| => v0[LastBelow(ws, x[j]) + 1])
  }

  /** The mask of wheel i moves every position beyond it to the value after it. */
  lemma FillStep(v0: seq<real>, w: seq<real>, i: int, x: seq<real>)
    requires 0 <= i < |w| < |v0|
    ensures Masked(FilledBy(v0, w[..i], x), x, w[i], v0[i + 1]) == FilledBy(v0, w[..i + 1], x)
  {
    var before, after := Masked(FilledBy(v0, w[..i], x), x, w[i], v0[i + 1]), FilledBy(v0, w[..i + 1], x);
    forall j | 0 <= j < |x|
      ensures before[j] == after[j]
    {
      LastBelowStep(w, i, x[j]);
    }
  }

  /** After every wheel's mask, the mask at the span's end completes the
      expanded shear. */
  lemma FillEnd(v0: seq<real>, w: seq<real>, length: real, x: seq<real>)
    requires |v0| == |w| + 2
    ensures Masked(FilledBy(v0, w, x), x, length, v0[|v0| - 1]) == ExpandedShear(v0, w, length, x)
  {
  }

  /** The moment array of expanded_bending_moments: a zero-filled array whose
      entry i becomes entry i - 1 plus the shear times the step. */
  method Integrate(v: seq<real>, x: seq<real>) returns (r: seq<real>)
    requires |v| == |x|
    ensures r == Moments(v, x)
  {
    if |x| == 0 {
      return [];
    }
    var m := new real[|x|](j requires 0 <= j < |x| => 0.0);
    var i := 1;
    while i < |x|
      invariant 1 <= i <= |x|
      invariant forall j {:trigger m[j]} :: 0 <= j < i ==> m[j] == Integral(v, x, j)
    {
      var next := m[i - 1] + Times(v[i - 1], x[i] - x[i - 1]);
      assert next == Integral(v, x, i);
      m[i] := next;
      i := i + 1;
    }
    r := m[..];
    MomentsByEntry(r, v, x);
  }

  /** A list holding the running integral at every position is the moment list. */
  lemma MomentsByEntry(r: seq<real>, v: seq<real>, x: seq<real>)
    requires |v| == |x| == |r|
    requires forall j :: 0 <= j < |x| ==> r[j] == Integral(v, x, j)
    ensures r == Moments(v, x)
  {
  }

  lemma LastBelowStep(w: seq<real>, i: int, t: real)
    requires 0 <= i < |w|
    ensures LastBelow(w[..i + 1], t) == if t > w[i] then i else LastBelow(w[..i], t)
  {
    assert w[..i + 1][..i] == w[..i];
  }

  // ---------------------------------------------------------------------
  // Equilibrium

  /** The loads of a normalised distribution add up to the train load. */
  lemma LoadsSumToTrainLoad(distribution: seq<real>, load: real)
    requires Sum(distribution) == 1.0
    ensures Sum(Scale(distribution, load)) == load
  {
    SumScale(distribution, load);
  }

  lemma SumSplitLast(l: seq<real>, j: int)
    requires 0 < j <= |l|
    ensures Sum(l[..j]) == Sum(l[..j - 1]) + l[j - 1]
  {
    assert l[..j][..j - 1] == l[..j - 1];
  }

  lemma DotSplitLast(w: seq<real>, l: seq<real>, j: int)
    requires |w| == |l| && 0 < j <= |l|
    ensures Dot(w[..j], l[..j]) == Dot(w[..j - 1], l[..j - 1]) + w[j - 1] * l[j - 1]
  {
    assert w[..j][..j - 1] == w[..j - 1];
    assert l[..j][..j - 1] == l[..j - 1];
  }

  /** The shear list starts at the start reaction, drops by each wheel load
      in turn, and closes at zero when the reactions carry all the loads. */
  lemma ShearDiagramShape(rStart: real, rEnd: real, loads: seq<real>)
    ensures ShearDiagram(rStart, rEnd, loads)[0] == rStart
    ensures forall k :: 0 <= k < |loads| ==>
      ShearDiagram(rStart, rEnd, loads)[k + 1] == ShearDiagram(rStart, rEnd, loads)[k] - loads[k]
    ensures rStart + rEnd == Sum(loads) ==> ShearDiagram(rStart, rEnd, loads)[|loads| + 1] == 0.0
  {
    var v := ShearDiagram(rStart, rEnd, loads);
    assert loads[..0] == [];
    forall k | 0 <= k < |loads|
      ensures v[k + 1] == v[k] - loads[k]
    {
      SumSplitLast(loads, k + 1);
    }
  }

  /** With loads adding up to the train load and a non-zero span, the shear
      list closes at exactly zero. */
  lemma ShearCloses(load: real, wheels: seq<real>, loads: seq<real>, length: real)
    requires |wheels| == |loads| && Sum(loads) == load && length != 0.0
    ensures Shear(load, wheels, loads, length).Ok?
    ensures Shear(load, wheels, loads, length).value[|loads| + 1] == 0.0
  {
    var rs := Reactions(load, wheels, loads, length).value;
    ShearDiagramShape(rs.0, rs.1, loads);
  }

  lemma MomentStepAlgebra(rs: real, s0: real, a: real, d0: real, q: real, q1: real)
    ensures (rs - s0) * q + d0 + (rs - (s0 + a)) * (q1 - q) == (rs - (s0 + a)) * q1 + (d0 + q * a)
  {
  }

  /** Closed form of the moment at the j-th position: the shear after j - 1
      wheels times the position, plus the moments of those wheel loads. */
  lemma {:induction false} MomentClosedForm(rStart: real, rEnd: real, wheels: seq<real>, loads: seq<real>, length: real, j: nat)
    requires |wheels| == |loads| && 1 <= j <= |loads| + 1
    ensures Integral(ShearDiagram(rStart, rEnd, loads), Positions(wheels, length), j)
         == (rStart - Sum(loads[..j - 1])) * Positions(wheels, length)[j] + Dot(wheels[..j - 1], loads[..j - 1])
  {
    var v, p := ShearDiagram(rStart, rEnd, loads), Positions(wheels, length);
    if j == 1 {
      assert loads[..0] == [] && wheels[..0] == [];
    } else {
      MomentClosedForm(rStart, rEnd, wheels, loads, length, j - 1);
      SumSplitLast(loads, j - 1);
      DotSplitLast(wheels, loads, j - 1);
      assert p[j - 1] == wheels[j - 2];
      MomentStepAlgebra(rStart, Sum(loads[..j - 2]), loads[j - 2], Dot(wheels[..j - 2], loads[..j - 2]), p[j - 1], p[j]);
    }
  }

  lemma MomentEndAlgebra(load: real, rEnd: real, length: real, d: real)
    requires rEnd * length == d
    ensures (load - rEnd - load) * length + d == 0.0
  {
  }

  /** The moment list is zero at both supports, wherever the wheels stand. */
  lemma BendingCloses(load: real, wheels: seq<real>, loads: seq<real>, length: real)
    requires |wheels| == |loads| && Sum(loads) == load && length != 0.0
    ensures Bending(load, wheels, loads, length).Ok?
    ensures Bending(load, wheels, loads, length).value[0] == 0.0
    ensures Bending(load, wheels, loads, length).value[|loads| + 1] == 0.0
  {
    var rs := Reactions(load, wheels, loads, length).value;
    var n := |loads|;
    MomentClosedForm(rs.0, rs.1, wheels, loads, length, n + 1);
    assert loads[..n] == loads && wheels[..n] == wheels;
    MomentEndAlgebra(load, rs.1, length, Dot(wheels, loads));
  }

  // ---------------------------------------------------------------------
  // Grid and expanded shear

  /** With wheels in ascending order, the wheels strictly left of t are
      exactly the first LastBelow + 1 of them. */
  lemma LastBelowSorted(wheels: seq<real>, t: real)
    requires Sorted(wheels)
    ensures forall i :: 0 <= i < |wheels| ==> (i <= LastBelow(wheels, t) <==> wheels[i] < t)
  {
  }

  /** numpy's linspace spaces its points (b - a) / (num - 1) apart and ends at b. */
  lemma LinspaceSpacing(a: real, b: real, num: nat)
    requires num >= 2
    ensures Linspace(a, b, num)[0] == a && Linspace(a, b, num)[num - 1] == b
    ensures forall k :: 0 <= k < num - 1 ==>
      Linspace(a, b, num)[k + 1] - Linspace(a, b, num)[k] == (b - a) / ((num - 1) as real)
  {
    LinspaceAt(a, b, num, 0);
    LinspaceAt(a, b, num, num - 1);
    forall k | 0 <= k < num - 1
      ensures Linspace(a, b, num)[k + 1] - Linspace(a, b, num)[k] == (b - a) / ((num - 1) as real)
    {
      LinspaceGap(a, b, num, k);
    }
  }

  lemma LinspaceAt(a: real, b: real, num: nat, k: int)
    requires num >= 2 && 0 <= k < num
    ensures Linspace(a, b, num)[k] == a + Over(Times(b - a, k as real), (num - 1) as real)
  {
    assert Linspace(a, b, num)[k] == a + (b - a) * (k as real) / ((num - 1) as real);
  }

  lemma LinspaceGap(a: real, b: real, num: nat, k: int)
    requires num >= 2 && 0 <= k < num - 1
    ensures Linspace(a, b, num)[k + 1] - Linspace(a, b, num)[k] == (b - a) / ((num - 1) as real)
  {
    var d := (num - 1) as real;
    LinspaceAt(a, b, num, k);
    LinspaceAt(a, b, num, k + 1);
    var t0, t1 := Times(b - a, k as real), Times(b - a, (k + 1) as real);
    assert t1 == t0 + (b - a);
    assert Over(t1, d) == Over(t0, d) + (b - a) / d;
  }

  /** The grid's step is length / (n - 1) for n = length / dx points, which is
      not dx: dividing the span into n points leaves n - 1 gaps. */
  lemma XLinespaceStep(length: real, dx: real)
    requires XLinespace(length, dx).Ok? && |XLinespace(length, dx).value| >= 2
    ensures forall k :: 0 <= k < |XLinespace(length, dx).value| - 1 ==>
      XLinespace(length, dx).value[k + 1] - XLinespace(length, dx).value[k]
        == length / ((|XLinespace(length, dx).value| - 1) as real)
  {
    var n := (length / dx).Floor;
    LinspaceSpacing(0.0, length, n);
  }

  // ---------------------------------------------------------------------
  // Peaks

  /** An attained bound on the magnitudes is the peak. */
  lemma PeakUnique(m: seq<real>, r: real, k: int)
    requires 0 <= k < |m| && Abs(m[k]) == r && forall i :: 0 <= i < |m| ==> Abs(m[i]) <= r
    ensures Peak(m) == r
  {
  }

  /** With m[0] == 0, the peak is also max(max m, -min m). */
  lemma PeakFromZero(m: seq<real>)
    requires |m| > 0 && m[0] == 0.0
    ensures Peak(m) == Max2(Max(m), -Min(m))
  {
    var hi, lo := Max(m), Min(m);
    assert m[0] <= hi;
    assert lo <= m[0];
    Max2OfSigned(hi, lo);
    assert Peak(m) == Max2(Abs(hi), Abs(lo));
  }

  lemma Max2OfSigned(hi: real, lo: real)
    requires lo <= 0.0 <= hi
    ensures Max2(Abs(hi), Abs(lo)) == Max2(hi, -lo)
  {
  }

  // ---------------------------------------------------------------------
  // Linearity in the train load

  function ScaleSeqResult(r: Result<seq<real>>, k: real): Result<seq<real>>
  {
    match r
    case Err(e) => Err(e)
    case Ok(v) => Ok(Scale(v, k))
  }

  function ScalePairResult(r: Result<(real, real)>, k: real): Result<(real, real)>
  {
    match r
    case Err(e) => Err(e)
    case Ok(v) => Ok((Times(v.0, k), Times(v.1, k)))
  }

  function ScaleRealResult(r: Result<real>, k: real): Result<real>
  {
    match r
    case Err(e) => Err(e)
    case Ok(v) => Ok(Times(v, k))
  }

  lemma ScaleSlice(s: seq<real>, k: real, j: int)
    requires 0 <= j <= |s|
    ensures Scale(s, k)[..j] == Scale(s[..j], k)
  {
    forall i | 0 <= i < j
      ensures Scale(s, k)[..j][i] == Scale(s[..j], k)[i]
    {
      MulEq(s[i], s[..j][i], k, k);
    }
  }

  lemma DivTimes(dk: real, d: real, k: real, length: real)
    requires length != 0.0 && dk == d * k
    ensures dk / length == Times(d / length, k)
  {
  }

  lemma AddTimes(ak: real, bk: real, a: real, b: real, k: real)
    requires ak == Times(a, k) && bk == Times(b, k)
    ensures ak + bk == Times(a + b, k)
  {
  }

  lemma SubTimes(ak: real, bk: real, a: real, b: real, k: real)
    requires ak == Times(a, k) && bk == Times(b, k)
    ensures ak - bk == Times(a - b, k)
  {
  }

  /** Scaling the train load and its loads by k scales both reactions by k. */
  lemma ReactionsScale(load: real, wheels: seq<real>, loads: seq<real>, length: real, k: real)
    requires |wheels| == |loads|
    ensures Reactions(load * k, wheels, Scale(loads, k), length)
         == ScalePairResult(Reactions(load, wheels, loads, length), k)
  {
    if length != 0.0 {
      var d, dk := Dot(wheels, loads), Dot(wheels, Scale(loads, k));
      DotScale(wheels, loads, k);
      DivTimes(dk, d, k, length);
      SubTimes(load * k, dk / length, load, d / length, k);
    }
  }

  lemma ShearStepScale(rStart: real, loads: seq<real>, k: real, j: int)
    requires 0 <= j <= |loads|
    ensures Times(rStart, k) - Sum(Scale(loads, k)[..j]) == Times(rStart - Sum(loads[..j]), k)
  {
    ScaleSlice(loads, k, j);
    SumScale(loads[..j], k);
    SubTimes(Times(rStart, k), Sum(Scale(loads, k)[..j]), rStart, Sum(loads[..j]), k);
  }

  lemma ShearLastScale(rStart: real, rEnd: real, loads: seq<real>, k: real)
    ensures Times(rStart, k) - Sum(Scale(loads, k)) + Times(rEnd, k) == Times(rStart - Sum(loads) + rEnd, k)
  {
    SumScale(loads, k);
    SubTimes(Times(rStart, k), Sum(Scale(loads, k)), rStart, Sum(loads), k);
    AddTimes(Times(rStart, k) - Sum(Scale(loads, k)), Times(rEnd, k), rStart - Sum(loads), rEnd, k);
  }

  /** Entry j of the shear list: the start reaction less the first j loads,
      and, last, the end reaction added back. */
  lemma ShearDiagramAt(rStart: real, rEnd: real, loads: seq<real>, j: int)
    requires 0 <= j <= |loads| + 1
    ensures ShearDiagram(rStart, rEnd, loads)[j]
         == if j <= |loads| then rStart - Sum(loads[..j]) else rStart - Sum(loads) + rEnd
  {
  }

  lemma ShearEntryScale(rStart: real, rEnd: real, loads: seq<real>, k: real, j: int)
    requires 0 <= j <= |loads| + 1
    ensures ShearDiagram(Times(rStart, k), Times(rEnd, k), Scale(loads, k))[j]
         == Scale(ShearDiagram(rStart, rEnd, loads), k)[j]
  {
    ShearDiagramAt(Times(rStart, k), Times(rEnd, k), Scale(loads, k), j);
    ShearDiagramAt(rStart, rEnd, loads, j);
    if j <= |loads| {
      ShearStepScale(rStart, loads, k, j);
    } else {
      ShearLastScale(rStart, rEnd, loads, k);
    }
  }

  lemma ShearDiagramScale(rStart: real, rEnd: real, loads: seq<real>, k: real)
    ensures ShearDiagram(Times(rStart, k), Times(rEnd, k), Scale(loads, k)) == Scale(ShearDiagram(rStart, rEnd, loads), k)
  {
    forall j | 0 <= j <= |loads| + 1
      ensures ShearDiagram(Times(rStart, k), Times(rEnd, k), Scale(loads, k))[j]
           == Scale(ShearDiagram(rStart, rEnd, loads), k)[j]
    {
      ShearEntryScale(rStart, rEnd, loads, k, j);
    }
  }

  /** The shear list is linear in the train load. */
  lemma ShearScale(load: real, wheels: seq<real>, loads: seq<real>, length: real, k: real)
    requires |wheels| == |loads|
    ensures Shear(load * k, wheels, Scale(loads, k), length) == ScaleSeqResult(Shear(load, wheels, loads, length), k)
  {
    ReactionsScale(load, wheels, loads, length, k);
    if length != 0.0 {
      var rs := Reactions(load, wheels, loads, length).value;
      ShearDiagramScale(rs.0, rs.1, loads, k);
    }
  }

  lemma {:induction false} IntegralScale(v: seq<real>, p: seq<real>, j: nat, k: real)
    requires j < |p| <= |v|
    ensures Integral(Scale(v, k), p, j) == Integral(v, p, j) * k
  {
    if j > 0 {
      IntegralScale(v, p, j - 1, k);
      var i, d := Integral(v, p, j - 1), p[j] - p[j - 1];
      assert i * k + (v[j - 1] * k) * d == (i + v[j - 1] * d) * k;
    }
  }

  lemma MomentsScale(v: seq<real>, p: seq<real>, k: real)
    requires |v| == |p|
    ensures Moments(Scale(v, k), p) == Scale(Moments(v, p), k)
  {
    forall j | 0 <= j < |p|
      ensures Moments(Scale(v, k), p)[j] == Scale(Moments(v, p), k)[j]
    {
      IntegralScale(v, p, j, k);
    }
  }

  /** The moment list is linear in the train load. */
  lemma BendingScale(load: real, wheels: seq<real>, loads: seq<real>, length: real, k: real)
    requires |wheels| == |loads|
    ensures Bending(load * k, wheels, Scale(loads, k), length) == ScaleSeqResult(Bending(load, wheels, loads, length), k)
  {
    ShearScale(load, wheels, loads, length, k);
    if length != 0.0 {
      MomentsScale(Shear(load, wheels, loads, length).value, Positions(wheels, length), k);
    }
  }

  lemma AbsTimes(x: real, k: real)
    requires k > 0.0
    ensures Abs(Times(x, k)) == Times(Abs(x), k)
  {
  }

  lemma ScaledMagnitudes(m: seq<real>, k: real, r: real)
    requires k > 0.0 && forall i :: 0 <= i < |m| ==> Abs(m[i]) <= r
    ensures forall i :: 0 <= i < |m| ==> Abs(Scale(m, k)[i]) <= Times(r, k)
  {
    forall i | 0 <= i < |m|
      ensures Abs(Scale(m, k)[i]) <= Times(r, k)
    {
      AbsTimes(m[i], k);
      MulMono(Abs(m[i]), r, k);
    }
  }

  /** A positive factor scales the peak magnitude. */
  lemma PeakScale(m: seq<real>, k: real)
    requires |m| > 0 && k > 0.0
    ensures Peak(Scale(m, k)) == Times(Peak(m), k)
  {
    var r := Peak(m);
    var i0 :| 0 <= i0 < |m| && Abs(m[i0]) == r;
    ScaledMagnitudes(m, k, r);
    AbsTimes(m[i0], k);
    PeakUnique(Scale(m, k), Times(r, k), i0);
  }

  lemma StressAlgebra(a: real, k: real, y: real, i: real)
    requires i != 0.0
    ensures Over(Times(Times(a, k), y), i) == Times(Over(Times(a, y), i), k)
  {
    assert Times(Times(a, k), y) == Times(Times(a, y), k);
  }

  lemma StressesScale(cs: Section, mMax: real, k: real)
    ensures Stresses(cs, Times(mMax, k)) == ScalePairResult(Stresses(cs, mMax), k)
  {
    StressesFromScale(Inertia(cs), Height(cs), Centroid(cs), mMax, k);
  }

  lemma StressesFromScale(inertia: Result<real>, height: Result<real>, centroid: Result<(real, real)>, mMax: real, k: real)
    ensures StressesFrom(inertia, height, centroid, Times(mMax, k))
         == ScalePairResult(StressesFrom(inertia, height, centroid, mMax), k)
  {
    if inertia.Ok? && height.Ok? && centroid.Ok? && inertia.value != 0.0 {
      var i, h, c := inertia.value, height.value, centroid.value;
      StressAlgebra(mMax, k, h - c.1, i);
      StressAlgebra(mMax, k, c.1, i);
    }
  }

  /** Both flexural stresses are linear in a positive train load. */
  lemma UltimateStressScale(cs: Section, load: real, wheels: seq<real>, loads: seq<real>, length: real, k: real)
    requires |wheels| == |loads| && k > 0.0
    ensures UltimateStress(cs, load * k, wheels, Scale(loads, k), length)
         == ScalePairResult(UltimateStress(cs, load, wheels, loads, length), k)
  {
    BendingScale(load, wheels, loads, length, k);
    if length != 0.0 {
      var m := Bending(load, wheels, loads, length).value;
      PeakScale(m, k);
      StressesScale(cs, Peak(m), k);
    }
  }

  lemma ShearStressAlgebra(a: real, k: real, q: real, i: real, b: real)
    requires i != 0.0 && b != 0.0
    ensures Over(Over(Times(Times(a, k), q), i), b) == Times(Over(Over(Times(a, q), i), b), k)
  {
    assert Times(Times(a, k), q) == Times(Times(a, q), k);
  }

  lemma ShearStressScale(cs: Section, vMax: real, k: real)
    ensures ShearStress(cs, Times(vMax, k)) == ScaleRealResult(ShearStress(cs, vMax), k)
  {
    ShearStressFromScale(QMax(cs), Inertia(cs), MinWidth(cs), vMax, k);
  }

  lemma ShearStressFromScale(qMax: Result<real>, inertia: Result<real>, minWidth: Result<real>, vMax: real, k: real)
    ensures ShearStressFrom(qMax, inertia, minWidth, Times(vMax, k))
         == ScaleRealResult(ShearStressFrom(qMax, inertia, minWidth, vMax), k)
  {
    if qMax.Ok? && inertia.Ok? && minWidth.Ok? && inertia.value != 0.0 && minWidth.value != 0.0 {
      ShearStressAlgebra(vMax, k, qMax.value, inertia.value, minWidth.value);
    }
  }

  /** The shear stress is linear in a positive train load. */
  lemma UltimateShearStressScale(cs: Section, load: real, wheels: seq<real>, loads: seq<real>, length: real, k: real)
    requires |wheels| == |loads| && k > 0.0
    ensures UltimateShearStress(cs, load * k, wheels, Scale(loads, k), length)
         == ScaleRealResult(UltimateShearStress(cs, load, wheels, loads, length), k)
  {
    ShearScale(load, wheels, loads, length, k);
    if length != 0.0 {
      var v := Shear(load, wheels, loads, length).value;
      PeakScale(v, k);
      ShearStressScale(cs, Peak(v), k);
    }
  }

  function DivPairResult(r: Result<(real, real)>, k: real): Result<(real, real)>
    requires k != 0.0
  {
    match r
    case Err(e) => Err(e)
    case Ok(v) => Ok((Over(v.0, k), Over(v.1, k)))
  }

  function DivRealResult(r: Result<real>, k: real): Result<real>
    requires k != 0.0
  {
    match r
    case Err(e) => Err(e)
    case Ok(v) => Ok(Over(v, k))
  }

  lemma DivTwice(s: real, x: real, k: real)
    requires x != 0.0 && k != 0.0
    ensures Over(s, Times(x, k)) == Over(Over(s, x), k)
  {
  }

  /** Safety factors are inversely proportional to a positive scaling of
      the applied stresses. */
  lemma SafetyFactorScale(safe: (real, real), stress: Result<(real, real)>, k: real)
    requires k > 0.0
    ensures SafetyFactor(safe, ScalePairResult(stress, k)) == DivPairResult(SafetyFactor(safe, stress), k)
  {
    if stress.Ok? && stress.value.0 != 0.0 && stress.value.1 != 0.0 {
      DivTwice(safe.0, stress.value.0, k);
      DivTwice(safe.1, stress.value.1, k);
    }
  }

  lemma ShearSafetyFactorScale(safe: real, stress: Result<real>, k: real)
    requires k > 0.0
    ensures ShearSafetyFactor(safe, ScaleRealResult(stress, k)) == DivRealResult(ShearSafetyFactor(safe, stress), k)
  {
    if stress.Ok? && stress.value != 0.0 {
      DivTwice(safe, stress.value, k);
    }
  }

  // ---------------------------------------------------------------------
  // The bridge

  class BeamBridge {
    var trainLoad: real
    const distribution: seq<real>
    var loads: seq<real>
    var wheels: seq<real>
    const length: real
    var crossSection: Section

    /** The loads are the normalised distribution times the train load. */
    ghost predicate LoadsFollow()
      reads this`trainLoad, this`loads
    {
      Sum(distribution) == 1.0 && loads == Scale(distribution, trainLoad)
    }

    ghost predicate Valid()
      reads this
    {
      |wheels| == |distribution| == |loads| && LoadsFollow()
    }

    constructor (load: real, cs: Section, length: real, wheelPositions: seq<real>, loadDistribution: seq<real>)
      requires |wheelPositions| == |loadDistribution| && Sum(loadDistribution) != 0.0
      ensures Valid()
      ensures trainLoad == load && crossSection == cs && this.length == length
      ensures distribution == Normalize(loadDistribution)
      ensures wheels == wheelPositions
    {
      trainLoad := load;
      distribution := Normalize(loadDistribution);
      loads := Scale(Normalize(loadDistribution), load);
      wheels := wheelPositions;
      this.length := length;
      crossSection := cs;
    }

    /** The train_load setter: the loads follow the new total. */
    method SetTrainLoad(load: real)
      requires Valid()
      modifies this`trainLoad, this`loads
      ensures Valid()
      ensures trainLoad == load && loads == Scale(distribution, load)
      ensures crossSection == old(crossSection)
    {
      trainLoad := load;
      loads := Scale(distribution, load);
    }

    method AddTrainLoad(delta: real)
      requires Valid()
      modifies this`trainLoad, this`loads
      ensures Valid()
      ensures trainLoad == old(trainLoad) + delta && loads == Scale(distribution, trainLoad)
      ensures crossSection == old(crossSection)
    {
      SetTrainLoad(trainLoad + delta);
    }

    method SetCrossSection(cs: Section)
      requires Valid()
      modifies this`crossSection
      ensures Valid() && crossSection == cs
      ensures trainLoad == old(trainLoad) && loads == old(loads)
    {
      crossSection := cs;
    }

    /** numpy's in-place += on the wheel positions: every wheel moves by step. */
    method MoveTheTrain(step: real)
      modifies this`wheels
      ensures wheels == Shift(old(wheels), step)
      ensures old(Valid()) ==> Valid()
    {
      wheels := Shift(wheels, step);
    }

    /** Move the train so that its first wheel stands at start; an empty
        train has no first wheel. */
    method PlaceTheTrain(start: real) returns (r: Result<()>)
      modifies this`wheels
      ensures r.Err? <==> |wheels| == 0
      ensures r.Err? ==> r.error == IndexError && wheels == old(wheels)
      ensures r.Ok? ==> |old(wheels)| > 0 && wheels == Shift(old(wheels), start - old(wheels[0]))
      ensures r.Ok? ==> wheels[0] == start
    {
      if |wheels| == 0 {
        return Err(IndexError);
      }
      MoveTheTrain(start - wheels[0]);
      r := Ok(());
    }

    method ShearForces() returns (r: Result<seq<real>>)
      requires Valid()
      ensures r == Shear(trainLoad, wheels, loads, length)
    {
      var reactions := Reactions(trainLoad, wheels, loads, length);
      if reactions.Err? {
        return Err(reactions.error);
      }
      var (rStart, rEnd) := reactions.value;
      var v := [rStart];
      var i := 0;
      while i < |loads|
        invariant 0 <= i <= |loads|
        invariant v == ShearSteps(rStart, loads, i)
      {
        assert loads[..i + 1][..i] == loads[..i];
        v := v + [v[i] - loads[i]];
        i := i + 1;
      }
      assert loads[..|loads|] == loads;
      v := v + [v[|loads|] + rEnd];
      r := Ok(v);
    }

    method BendingMoments() returns (r: Result<seq<real>>)
      requires Valid()
      ensures r == Bending(trainLoad, wheels, loads, length)
    {
      var shear := ShearForces();
      if shear.Err? {
        return Err(shear.error);
      }
      var v := shear.value;
      var positions := [0.0] + wheels + [length];
      var m := [0.0];
      var i := 1;
      while i < |v|
        invariant 1 <= i <= |v|
        invariant m == Moments(v[..i], positions[..i])
      {
        MomentsAppend(v, positions, i);
        m := m + [m[i - 1] + Times(v[i - 1], positions[i] - positions[i - 1])];
        i := i + 1;
      }
      assert v[..|v|] == v && positions[..|v|] == positions;
      r := Ok(m);
    }

    /** Shear at every grid position, filled in place wheel by wheel. */
    method ExpandedShearForces(x: seq<real>) returns (r: Result<seq<real>>)
      requires Valid()
      ensures r.Err? <==> Shear(trainLoad, wheels, loads, length).Err?
      ensures r.Ok? ==> r.value == ExpandedShear(Shear(trainLoad, wheels, loads, length).value, wheels, length, x)
    {
      var shear := ShearForces();
      if shear.Err? {
        return Err(shear.error);
      }
      var v0 := shear.value;
      var w := wheels;
      var v := new real[|x|](j requires 0 <= j < |x| => v0[0]);
      assert v[..] == FilledBy(v0, w[..0], x);
      var i := 0;
      while i < |w|
        invariant 0 <= i <= |w|
        invariant v[..] == FilledBy(v0, w[..i], x)
      {
        FillStep(v0, w, i, x);
        MaskAssign(v, x, w[i], v0[i + 1]);
        i := i + 1;
      }
      assert w[..|w|] == w;
      FillEnd(v0, w, length, x);
      MaskAssign(v, x, length, v0[|v0| - 1]);
      r := Ok(v[..]);
    }

    /** Rectangle-rule integral of the expanded shear over the grid, filled in place. */
    method ExpandedBendingMoments(x: seq<real>) returns (r: Result<seq<real>>)
      requires Valid()
      ensures r.Err? <==> Shear(trainLoad, wheels, loads, length).Err?
      ensures r.Ok? ==>
        r.value == Moments(ExpandedShear(Shear(trainLoad, wheels, loads, length).value, wheels, length, x), x)
    {
      var shear := ExpandedShearForces(x);
      if shear.Err? {
        return Err(shear.error);
      }
      var m := Integrate(shear.value, x);
      r := Ok(m);
    }

    /** (compressive, tensile) stress at the peak moment. */
    method ComputeUltimateStress() returns (r: Result<(real, real)>)
      requires Valid()
      ensures r == UltimateStress(crossSection, trainLoad, wheels, loads, length)
    {
      var m := BendingMoments();
      if m.Err? {
        return Err(m.error);
      }
      var mMax := Max2(Abs(Max(m.value)), Abs(Min(m.value)));
      r := Stresses(crossSection, mMax);
    }

    method ComputeUltimateShearStress() returns (r: Result<real>)
      requires Valid()
      ensures r == UltimateShearStress(crossSection, trainLoad, wheels, loads, length)
    {
      var v := ShearForces();
      if v.Err? {
        return Err(v.error);
      }
      var vMax := Max2(Abs(Max(v.value)), Abs(Min(v.value)));
      r := ShearStress(crossSection, vMax);
    }

    /** Safe over applied stress, (compressive, tensile). */
    method ComputeSafetyFactor(safe: (real, real)) returns (r: Result<(real, real)>)
      requires Valid()
      ensures r == SafetyFactor(safe, UltimateStress(crossSection, trainLoad, wheels, loads, length))
    {
      var stress := ComputeUltimateStress();
      r := SafetyFactor(safe, stress);
    }

    method ComputeShearSafetyFactor(safe: real) returns (r: Result<real>)
      requires Valid()
      ensures r == ShearSafetyFactor(safe, UltimateShearStress(crossSection, trainLoad, wheels, loads, length))
    {
      var stress := ComputeUltimateShearStress();
      r := ShearSafetyFactor(safe, stress);
    }
  }
}
