/** The older package's bridge: a span of fixed length carrying a train of
    fixed total mass whose wheels can be moved. Its diagrams are the ones of
    the current beam model; its stresses use the older cross-sections. */
module LegacyBeam {
  import opened Common
  import opened LegacyGeometry
  import Beam

  /** max(max(m), -min(m)): the peak moment of ultimate_stress. */
  function MomentPeak(m: seq<real>): (r: real)
    requires |m| > 0
    ensures forall i :: 0 <= i < |m| ==> -r <= m[i] <= r
    ensures exists i :: 0 <= i < |m| && (m[i] == r || m[i] == -r)
  {
    Max2(Max(m), -Min(m))
  }

  /** ultimate_stress as written: the peak moment, the second moment, the
      height and the centroid are computed in that order, and then the
      centroid pair is subtracted from the height, which raises TypeError. */
  function UltimateStressAsWritten(cs: CrossSection, load: real, wheels: seq<real>, loads: seq<real>, length: real): (r: Result<(real, real)>)
    requires |wheels| == |loads|
    ensures r.Err?
    ensures Beam.Bending(load, wheels, loads, length).Ok? && Inertia(cs).Ok? && Height(cs).Ok? && Centroid(cs).Ok?
            ==> r == Err(TypeError)
  {
    match Beam.Bending(load, wheels, loads, length)
    case Err(e) => Err(e)
    case Ok(_) =>
      match Inertia(cs)
      case Err(e) => Err(e)
      case Ok(_) =>
        match Height(cs)
        case Err(e) => Err(e)
        case Ok(_) =>
          match Centroid(cs)
          case Err(e) => Err(e)
          case Ok(_) => Err(TypeError)
  }

  /** ultimate_stress with the vertical centroid coordinate where the pair is
      used: (compressive at the top, tensile at the bottom). */
  function UltimateStress(cs: CrossSection, load: real, wheels: seq<real>, loads: seq<real>, length: real): (r: Result<(real, real)>)
    requires |wheels| == |loads|
  {
    match Beam.Bending(load, wheels, loads, length)
    case Err(e) => Err(e)
    case Ok(m) => Beam.StressesFrom(Inertia(cs), Height(cs), Centroid(cs), MomentPeak(m))
  }

  /** A non-empty composite of non-zero area on a non-zero span: the stress
      as written raises, while the repaired one succeeds whenever the second
      moment is not zero. */
  lemma UltimateStressRaises(cs: CrossSection, load: real, wheels: seq<real>, loads: seq<real>, length: real)
    requires |wheels| == |loads| && length != 0.0
    requires cs.Complex? && |cs.parts| > 0 && AreaSum(cs.parts) != 0.0
    ensures UltimateStressAsWritten(cs, load, wheels, loads, length) == Err(TypeError)
    ensures Inertia(cs).value != 0.0 <==> UltimateStress(cs, load, wheels, loads, length).Ok?
  {
  }

  lemma StressSumAlgebra(p: real, h: real, c: real, i: real)
    requires i != 0.0
    ensures Over(Times(p, h - c), i) + Over(Times(p, c), i) == Over(Times(p, h), i)
  {
    assert Times(p, h - c) + Times(p, c) == Times(p, h);
  }

  /** Because the moment list starts at 0, the peak max(max m, -min m) is
      the largest moment magnitude, so the repaired stress is the current
      model's. */
  lemma MomentPeakIsPeak(cs: CrossSection, load: real, wheels: seq<real>, loads: seq<real>, length: real)
    requires |wheels| == |loads| && Beam.Bending(load, wheels, loads, length).Ok?
    ensures MomentPeak(Beam.Bending(load, wheels, loads, length).value) == Beam.Peak(Beam.Bending(load, wheels, loads, length).value)
    ensures UltimateStress(cs, load, wheels, loads, length)
         == Beam.StressesFrom(Inertia(cs), Height(cs), Centroid(cs), Beam.Peak(Beam.Bending(load, wheels, loads, length).value))
  {
    var m := Beam.Bending(load, wheels, loads, length).value;
    assert m[0] == Beam.Integral(Beam.Shear(load, wheels, loads, length).value, Beam.Positions(wheels, length), 0) == 0.0;
    Beam.PeakFromZero(m);
  }

  /** The two stresses add up to M h / I. */
  lemma StressesAddUp(inertia: Result<real>, height: Result<real>, centroid: Result<(real, real)>, mMax: real)
    requires Beam.StressesFrom(inertia, height, centroid, mMax).Ok?
    ensures inertia.Ok? && height.Ok? && inertia.value != 0.0
    ensures Beam.StressesFrom(inertia, height, centroid, mMax).value.0 + Beam.StressesFrom(inertia, height, centroid, mMax).value.1
         == Over(Times(mMax, height.value), inertia.value)
  {
    StressSumAlgebra(mMax, height.value, centroid.value.1, inertia.value);
  }

  class Bridge {
    const length: real
    const trainMass: real
    const crossSection: CrossSection
    const numCars: int
    var wheels: seq<real>
    const distribution: seq<real>
    const loads: seq<real>

    /** One load per wheel: the normalised distribution times the mass. */
    ghost predicate Valid()
      reads this`wheels
    {
      |wheels| == |distribution| == |loads| && Sum(distribution) == 1.0 && loads == Scale(distribution, trainMass)
    }

    constructor (length: real, trainMass: real, cs: CrossSection, numCars: int, wheelPositions: seq<real>, massDistribution: seq<real>)
      requires |wheelPositions| == |massDistribution| && Sum(massDistribution) != 0.0
      ensures Valid() && Sum(loads) == trainMass
      ensures this.length == length && this.trainMass == trainMass && crossSection == cs && this.numCars == numCars
      ensures wheels == wheelPositions && distribution == Beam.Normalize(massDistribution)
    {
      var d := Beam.Normalize(massDistribution);
      Beam.LoadsSumToTrainLoad(d, trainMass);
      this.length := length;
      this.trainMass := trainMass;
      crossSection := cs;
      this.numCars := numCars;
      wheels := wheelPositions;
      distribution := d;
      loads := Scale(d, trainMass);
    }

    /** length / dx grid points from 0 to the length. */
    method XLinespace(dx: real) returns (r: Result<seq<real>>)
      ensures r == Beam.XLinespace(length, dx)
    {
      if dx == 0.0 {
        return Err(ZeroDivisionError);
      }
      var n := length / dx;
      // int() and floor agree on a whole number and both miss any other
      var whole := n.Floor;
      if whole as real != n {
        return Err(ValueError);
      }
      if whole < 0 {
        return Err(ValueError);
      }
      r := Ok(Beam.Linspace(0.0, length, whole));
    }

    method ReactionForces() returns (r: Result<(real, real)>)
      requires Valid()
      ensures r == Beam.Reactions(trainMass, wheels, loads, length)
    {
      if length == 0.0 {
        return Err(ZeroDivisionError);
      }
      var rEnd := Dot(wheels, loads) / length;
      r := Ok((trainMass - rEnd, rEnd));
    }

    method ShearForces() returns (r: Result<seq<real>>)
      requires Valid()
      ensures r == Beam.Shear(trainMass, wheels, loads, length)
    {
      var reactions := ReactionForces();
      if reactions.Err? {
        return Err(reactions.error);
      }
      var (rStart, rEnd) := reactions.value;
      var v := [rStart];
      var i := 0;
      while i < |loads|
        invariant 0 <= i <= |loads|
        invariant v == Beam.ShearSteps(rStart, loads, i)
      {
        assert loads[..i + 1][..i] == loads[..i];
        v := v + [v[i] - loads[i]];
        i := i + 1;
      }
      assert loads[..|loads|] == loads;
      v := v + [v[|loads|] + rEnd];
      r := Ok(v);
    }

    method BendingMoments() returns (r: Result<seq<real>>)
      requires Valid()
      ensures r == Beam.Bending(trainMass, wheels, loads, length)
    {
      var shear := ShearForces();
      if shear.Err? {
        return Err(shear.error);
      }
      var v := shear.value;
      var positions := [0.0] + wheels + [length];
      var m := [0.0];
      var i := 1;
      while i < |v|
        invariant 1 <= i <= |v|
        invariant m == Beam.Moments(v[..i], positions[..i])
      {
        Beam.MomentsAppend(v, positions, i);
        m := m + [m[i - 1] + Times(v[i - 1], positions[i] - positions[i - 1])];
        i := i + 1;
      }
      assert v[..|v|] == v && positions[..|v|] == positions;
      r := Ok(m);
    }

    /** Shear at every grid position, filled in place wheel by wheel. */
    method ExpandedShearForces(x: seq<real>) returns (r: Result<seq<real>>)
      requires Valid()
      ensures r.Err? <==> Beam.Shear(trainMass, wheels, loads, length).Err?
      ensures r.Ok? ==> r.value == Beam.ExpandedShear(Beam.Shear(trainMass, wheels, loads, length).value, wheels, length, x)
    {
      var shear := ShearForces();
      if shear.Err? {
        return Err(shear.error);
      }
      var v0 := shear.value;
      var w := wheels;
      var v := new real[|x|](j requires 0 <= j < |x| => v0[0]);
      assert v[..] == Beam.FilledBy(v0, w[..0], x);
      var i := 0;
      while i < |w|
        invariant 0 <= i <= |w|
        invariant v[..] == Beam.FilledBy(v0, w[..i], x)
      {
        Beam.FillStep(v0, w, i, x);
        Beam.MaskAssign(v, x, w[i], v0[i + 1]);
        i := i + 1;
      }
      assert w[..|w|] == w;
      Beam.FillEnd(v0, w, length, x);
      Beam.MaskAssign(v, x, length, v0[|v0| - 1]);
      r := Ok(v[..]);
    }

    /** Rectangle-rule integral of the expanded shear over the grid. */
    method ExpandedBendingMoments(x: seq<real>) returns (r: Result<seq<real>>)
      requires Valid()
      ensures r.Err? <==> Beam.Shear(trainMass, wheels, loads, length).Err?
      ensures r.Ok? ==>
        r.value == Beam.Moments(Beam.ExpandedShear(Beam.Shear(trainMass, wheels, loads, length).value, wheels, length, x), x)
    {
      var shear := ExpandedShearForces(x);
      if shear.Err? {
        return Err(shear.error);
      }
      var m := Beam.Integrate(shear.value, x);
      r := Ok(m);
    }

    /** (compressive, tensile) stress at the peak moment, with the
        vertical centroid coordinate. */
    method ComputeUltimateStress() returns (r: Result<(real, real)>)
      requires Valid()
      ensures r == UltimateStress(crossSection, trainMass, wheels, loads, length)
    {
      var m := BendingMoments();
      if m.Err? {
        return Err(m.error);
      }
      var mMax := MomentPeak(m.value);
      var i := Inertia(crossSection);
      var h := Height(crossSection);
      var c := Centroid(crossSection);
      r := Beam.StressesFrom(i, h, c, mMax);
    }

    /** Safe over applied stress, componentwise. */
    method ComputeSafetyFactor(safe: (real, real)) returns (r: Result<(real, real)>)
      requires Valid()
      ensures r == Beam.SafetyFactor(safe, UltimateStress(crossSection, trainMass, wheels, loads, length))
    {
      var stress := ComputeUltimateStress();
      r := Beam.SafetyFactor(safe, stress);
    }

    /** numpy's in-place += on the wheel positions: every wheel moves by step. */
    method MoveTheTrain(step: real)
      modifies this`wheels
      ensures wheels == Shift(old(wheels), step)
      ensures old(Valid()) ==> Valid()
    {
      wheels := Shift(wheels, step);
    }
  }

  /** Wherever the train stands, the loads add up to the train's mass, the
      shear list of a non-zero span closes at 0 and its moment list vanishes
      at both supports. */
  lemma DiagramsClose(b: Bridge)
    requires b.Valid() && b.length != 0.0
    ensures Sum(b.loads) == b.trainMass
    ensures Beam.Shear(b.trainMass, b.wheels, b.loads, b.length).Ok?
    ensures Beam.Shear(b.trainMass, b.wheels, b.loads, b.length).value[|b.loads| + 1] == 0.0
    ensures Beam.Bending(b.trainMass, b.wheels, b.loads, b.length).Ok?
    ensures Beam.Bending(b.trainMass, b.wheels, b.loads, b.length).value[0] == 0.0
    ensures Beam.Bending(b.trainMass, b.wheels, b.loads, b.length).value[|b.loads| + 1] == 0.0
  {
    Beam.LoadsSumToTrainLoad(b.distribution, b.trainMass);
    Beam.ShearCloses(b.trainMass, b.wheels, b.loads, b.length);
    Beam.BendingCloses(b.trainMass, b.wheels, b.loads, b.length);
  }

  /** safety_factor as written divides by the stresses of ultimate_stress,
      which always raises; so does safety_factor. */
  lemma SafetyFactorRaises(safe: (real, real), cs: CrossSection, load: real, wheels: seq<real>, loads: seq<real>, length: real)
    requires |wheels| == |loads|
    ensures Beam.SafetyFactor(safe, UltimateStressAsWritten(cs, load, wheels, loads, length)).Err?
  {
  }
}
