/** The evaluator of bridger/evaluation.py: it drives a train across a beam
    bridge, collects the three safety-factor series, finds the dead zones and
    derives the largest train load the bridge carries. */
module Evaluation {
  import opened Common
  import opened Geometry
  import opened Beam
  import opened Runs

  /** Strengths of the material (bridger/material.py); density, modulus and
      glue strength are carried but never read by the evaluator. */
  datatype Material = Material(tensile: real, compressive: real, shear: real)

  const Matboard := Material(30.0, 6.0, 4.0)

  /** The three safety-factor series of one pass, one entry per position. */
  datatype Series = Series(compression: seq<real>, tension: seq<real>, shear: seq<real>)

  /** The failure mode a maximum load is attributed to. */
  datatype Mode = CompressionMode | TensionMode | ShearMode

  // ---------------------------------------------------------------------
  // Specification

  /** Python's int() of a real: truncation toward zero. */
  function Trunc(x: real): (n: int)
    ensures x >= 0.0 ==> n as real <= x < n as real + 1.0
    ensures x < 0.0 ==> n as real - 1.0 < x <= n as real
  {
    if x >= 0.0 then x.Floor else -((-x).Floor)
  }

  /** Number of positions of a pass: int(length + first - last / dx), with
      the division evaluated first. A zero step makes numpy's quotient an
      infinity (int() raises OverflowError) or, for a last wheel at 0, a NaN
      (int() raises ValueError). */
  function Steps(length: real, wheels: seq<real>, dx: real): (r: Result<int>)
    requires |wheels| > 0
    ensures r.Err? <==> dx == 0.0
    ensures r.Err? ==> r.error == (if wheels[|wheels| - 1] == 0.0 then ValueError else OverflowError)
    ensures r.Ok? ==> r.value == Trunc(length + wheels[0] - wheels[|wheels| - 1] / dx)
  {
    if dx == 0.0 then
      (if wheels[|wheels| - 1] == 0.0 then Err(ValueError) else Err(OverflowError))
    else Ok(Trunc(length + wheels[0] - Over(wheels[|wheels| - 1], dx)))
  }

  /** The three safety factors of one train position, the flexural pair
      first, as the evaluator asks for them. */
  function Sample(cs: Section, load: real, loads: seq<real>, length: real, wheels: seq<real>, m: Material): Result<(real, real, real)>
    requires |wheels| == |loads|
  {
    match SafetyFactor((m.compressive, m.tensile), UltimateStress(cs, load, wheels, loads, length))
    case Err(e) => Err(e)
    case Ok(f) =>
      match ShearSafetyFactor(m.shear, UltimateShearStress(cs, load, wheels, loads, length))
      case Err(e) => Err(e)
      case Ok(s) => Ok((f.0, f.1, s))
  }

  /** How far the train has moved after k steps of dx, accumulated one
      step at a time as the pass does. */
  function Travel(k: nat, dx: real): real
  {
    if k == 0 then 0.0 else Travel(k - 1, dx) + dx
  }

  /** k steps of dx move the train by k * dx. */
  lemma {:induction false} TravelIsProduct(k: nat, dx: real)
    ensures Travel(k, dx) == k as real * dx
  {
    if k > 0 {
      TravelIsProduct(k - 1, dx);
      assert (k - 1) as real * dx + dx == k as real * dx;
    }
  }

  type Sampler = seq<real> -> Result<(real, real, real)>

  /** The safety factors at a placement of the wheels. The bridge keeps one
      load per wheel, so a placement of another size never reaches the
      sampler; it is given IndexError only to make the sampler total. */
  function SamplerOf(cs: Section, load: real, loads: seq<real>, length: real, m: Material): Sampler
  {
    w => if |w| == |loads| then Sample(cs, load, loads, length, w, m) else Err(IndexError)
  }

  /** f gives the safety factors of the setting at every placement of the
      setting's size. The quantifier is instantiated only for placements
      whose sample is already under discussion, so that reasoning about a
      whole pass does not evaluate the sample at every placement it names. */
  ghost predicate Agrees(f: Sampler, cs: Section, load: real, loads: seq<real>, length: real, m: Material)
  {
    forall w {:trigger Sample(cs, load, loads, length, w, m)} :: |w| == |loads| ==> f(w) == Sample(cs, load, loads, length, w, m)
  }

  lemma SamplerOfAgrees(cs: Section, load: real, loads: seq<real>, length: real, m: Material)
    ensures Agrees(SamplerOf(cs, load, loads, length, m), cs, load, loads, length, m)
  {
  }

  /** The outcomes at the n positions reached from start after k = 0 .. n - 1
      steps of dx. */
  function Samples(f: Sampler, start: seq<real>, dx: real, n: nat): (xs: seq<Result<(real, real, real)>>)
    ensures |xs| == n
  {
    if n == 0 then [] else Samples(f, start, dx, n - 1) + [f(Shift(start, Travel(n - 1, dx)))]
  }

  /** Outcome k is the sample after k steps. */
  lemma {:induction false} SamplesAt(f: Sampler, start: seq<real>, dx: real, n: nat, k: nat)
    requires k < n
    ensures Samples(f, start, dx, n)[k] == f(Shift(start, Travel(k, dx)))
  {
    if k < n - 1 {
      SamplesAt(f, start, dx, n - 1, k);
    }
  }

  /** One more step of dx from the placement after k steps is the
      placement after k + 1 steps. */
  lemma NextPlacement(start: seq<real>, here: seq<real>, next: seq<real>, k: nat, dx: real)
    requires here == Shift(start, Travel(k, dx)) && next == Shift(here, dx)
    ensures next == Shift(start, Travel(k + 1, dx))
  {
    ShiftShift(start, Travel(k, dx), dx);
  }

  /** The series collected from per-position outcomes in order; the first
      outcome that raises decides the error. */
  function Collect(xs: seq<Result<(real, real, real)>>): Result<Series>
  {
    if xs == [] then Ok(Series([], [], []))
    else
      match Collect(xs[..|xs| - 1])
      case Err(e) => Err(e)
      case Ok(s) =>
        match xs[|xs| - 1]
        case Err(e) => Err(e)
        case Ok(x) => Ok(Series(s.compression + [x.0], s.tension + [x.1], s.shear + [x.2]))
  }

  /** The series of a pass of n positions from start. */
  function Sweep(f: Sampler, start: seq<real>, dx: real, n: nat): Result<Series>
  {
    Collect(Samples(f, start, dx, n))
  }

  /** What a pass returns: the train is first put at 0, the number of
      positions is read off that placement, then the train steps by dx. */
  function PassWith(f: Sampler, length: real, wheels: seq<real>, dx: real): Result<Series>
    requires |wheels| > 0
  {
    var start := Shift(wheels, 0.0 - wheels[0]);
    match Steps(length, start, dx)
    case Err(e) => Err(e)
    case Ok(n) => Sweep(f, start, dx, if n < 0 then 0 else n)
  }

  /** The pass from a train already moved to the left support: its steps,
      then the sweep from there. */
  lemma PassFrom(f: Sampler, length: real, wheels: seq<real>, dx: real, start: seq<real>, n: Result<int>)
    requires |wheels| > 0 && start == Shift(wheels, 0.0 - wheels[0]) && n == Steps(length, start, dx)
    ensures PassWith(f, length, wheels, dx) == match n
                                                case Err(e) => Err(e)
                                                case Ok(k) => Sweep(f, start, dx, if k < 0 then 0 else k)
  {
  }

  /** The pass of a train with the given loads over a bridge of the given
      section, length and material. */
  function Pass(cs: Section, load: real, loads: seq<real>, length: real, wheels: seq<real>, dx: real, m: Material): Result<Series>
    requires |wheels| > 0
  {
    PassWith(SamplerOf(cs, load, loads, length, m), length, wheels, dx)
  }

  /** Positions where some safety factor falls below the threshold. */
  function Failing(s: Series, threshold: real): (x: seq<bool>)
    requires |s.tension| == |s.shear| == |s.compression|
    ensures |x| == |s.compression|
    ensures forall i :: 0 <= i < |x| ==>
      (x[i] <==> s.compression[i] < threshold || s.tension[i] < threshold || s.shear[i] < threshold)
  {
    seq(|s.compression|, i requires 0 <= i < |s.compression| =>
      s.compression[i] < threshold || s.tension[i] < threshold || s.shear[i] < threshold)
  }

  /** The smallest of three values, attributed to the first mode attaining
      it in the order compression, tension, shear. */
  function Weakest(c: real, t: real, s: real): (r: (real, Mode))
    ensures r.0 <= c && r.0 <= t && r.0 <= s
    ensures r.1 == CompressionMode ==> r.0 == c
    ensures r.1 == TensionMode ==> r.0 == t && c > t
    ensures r.1 == ShearMode ==> r.0 == s && c > s && t > s
  {
    if c <= t && c <= s then (c, CompressionMode)
    else if t <= s then (t, TensionMode)
    else (s, ShearMode)
  }

  predicate NonEmpty(s: Series)
  {
    |s.compression| > 0 && |s.tension| > 0 && |s.shear| > 0
  }

  /** The smallest safety factor of a pass and its mode. */
  function Bottleneck(s: Series): (r: (real, Mode))
    requires NonEmpty(s)
  {
    Weakest(Min(s.compression), Min(s.tension), Min(s.shear))
  }

  /** What maximum_load returns for the outcome of a pass at unit load:
      min() of an empty series raises ValueError. */
  function MaxLoad(pass: Result<Series>): (r: Result<(real, Mode)>)
    ensures pass.Err? ==> r == Err(pass.error)
    ensures pass.Ok? && !NonEmpty(pass.value) ==> r == Err(ValueError)
    ensures pass.Ok? && NonEmpty(pass.value) ==> r == Ok(Bottleneck(pass.value))
  {
    match pass
    case Err(e) => Err(e)
    case Ok(s) => if NonEmpty(s) then Ok(Bottleneck(s)) else Err(ValueError)
  }

  // ---------------------------------------------------------------------
  // Properties of a pass

  /** A collection succeeds exactly when every outcome does, and then
      holds every outcome's values, in order. */
  lemma {:induction false} CollectOk(xs: seq<Result<(real, real, real)>>)
    ensures Collect(xs).Ok? <==> forall i :: 0 <= i < |xs| ==> xs[i].Ok?
    ensures Collect(xs).Ok? ==>
      var s := Collect(xs).value;
      |s.compression| == |xs| && |s.tension| == |xs| && |s.shear| == |xs|
      && forall i :: 0 <= i < |xs| ==>
           s.compression[i] == xs[i].value.0 && s.tension[i] == xs[i].value.1 && s.shear[i] == xs[i].value.2
  {
    if xs != [] {
      var init := xs[..|xs| - 1];
      CollectOk(init);
      assert forall i :: 0 <= i < |init| ==> init[i] == xs[i];
    }
  }

  /** A failed collection fails with the error of its first failing outcome. */
  lemma {:induction false} CollectFirstError(xs: seq<Result<(real, real, real)>>)
    requires Collect(xs).Err?
    ensures exists k :: 0 <= k < |xs| && xs[k] == Err(Collect(xs).error) && forall i :: 0 <= i < k ==> xs[i].Ok?
  {
    var init := xs[..|xs| - 1];
    assert forall i :: 0 <= i < |init| ==> init[i] == xs[i];
    if Collect(init).Err? {
      CollectFirstError(init);
    } else {
      CollectOk(init);
      assert xs[|xs| - 1] == Err(Collect(xs).error);
    }
  }

  lemma CollectStep(xs: seq<Result<(real, real, real)>>, k: nat, s: Series, x: (real, real, real))
    requires k < |xs| && Collect(xs[..k]) == Ok(s) && xs[k] == Ok(x)
    ensures Collect(xs[..k + 1]) == Ok(Series(s.compression + [x.0], s.tension + [x.1], s.shear + [x.2]))
  {
    assert xs[..k + 1][..k] == xs[..k];
  }

  /** An outcome that raises after successful ones ends the collection. */
  lemma {:induction false} CollectStops(xs: seq<Result<(real, real, real)>>, k: nat)
    requires k < |xs| && Collect(xs[..k]).Ok? && xs[k].Err?
    ensures Collect(xs) == Err(xs[k].error)
  {
    var init := xs[..|xs| - 1];
    if |xs| > k + 1 {
      assert init[..k] == xs[..k];
      CollectStops(init, k);
    } else {
      assert init == xs[..k];
    }
  }

  /** w is the train w0 moved, wheel spacing kept, so that its first wheel
      stands at p. */
  predicate MovedTo(w0: seq<real>, p: real, w: seq<real>)
  {
    |w0| > 0 && w == Shift(w0, p - w0[0])
  }

  /** The train relative to its first wheel: what a pass depends on. */
  function Normal(w: seq<real>): (r: seq<real>)
    requires |w| > 0
    ensures |r| == |w| && r[0] == 0.0
  {
    Shift(w, 0.0 - w[0])
  }

  /** Moving a train keeps its shape relative to the first wheel. */
  lemma MovedNormal(w0: seq<real>, p: real, w: seq<real>)
    requires MovedTo(w0, p, w)
    ensures |w| > 0 && Normal(w) == Normal(w0)
  {
    ShiftShift(w0, p - w0[0], 0.0 - w[0]);
    assert (p - w0[0]) + (0.0 - w[0]) == 0.0 - w0[0];
  }

  /** A pass starts from the train moved to the left support, so a train
      already relative to its first wheel passes alike. */
  lemma PassNormal(f: Sampler, length: real, w: seq<real>, dx: real)
    requires |w| > 0
    ensures PassWith(f, length, Normal(w), dx) == PassWith(f, length, w, dx)
  {
    ShiftShift(w, 0.0 - w[0], 0.0);
    assert Normal(Normal(w)) == Normal(w);
  }

  /** A train moved to 0, driven by travel and then placed at p stands
      where placing it at p straight away would have put it. */
  lemma ReturnTo(w0: seq<real>, start: seq<real>, end: seq<real>, final: seq<real>, travel: real, p: real)
    requires |w0| > 0
    requires start == Shift(w0, 0.0 - w0[0]) && end == Shift(start, travel)
    requires final == Shift(end, p - end[0])
    ensures MovedTo(w0, p, final)
  {
    ShiftShift(w0, 0.0 - w0[0], travel);
    ShiftShift(w0, 0.0 - w0[0] + travel, p - end[0]);
  }

  /** The maximum load is no larger than any safety factor of the unit pass. */
  lemma BottleneckBound(s: Series, i: int)
    requires NonEmpty(s)
    ensures 0 <= i < |s.compression| ==> Bottleneck(s).0 <= s.compression[i]
    ensures 0 <= i < |s.tension| ==> Bottleneck(s).0 <= s.tension[i]
    ensures 0 <= i < |s.shear| ==> Bottleneck(s).0 <= s.shear[i]
  {
  }

  /** The maximum load is a safety factor of the series its mode names. */
  lemma BottleneckAttained(s: Series)
    requires NonEmpty(s)
    ensures Bottleneck(s).1 == CompressionMode ==> Bottleneck(s).0 in s.compression
    ensures Bottleneck(s).1 == TensionMode ==> Bottleneck(s).0 in s.tension
    ensures Bottleneck(s).1 == ShearMode ==> Bottleneck(s).0 in s.shear
  {
  }

  // ---------------------------------------------------------------------
  // Safety factors are inversely proportional to the load

  function DivSeq(s: seq<real>, k: real): (r: seq<real>)
    requires k != 0.0
    ensures |r| == |s| && forall i :: 0 <= i < |s| ==> r[i] == Over(s[i], k)
  {
    seq(|s|, i requires 0 <= i < |s| => Over(s[i], k))
  }

  function DivSeries(r: Result<Series>, k: real): Result<Series>
    requires k != 0.0
  {
    match r
    case Err(e) => Err(e)
    case Ok(s) => Ok(Series(DivSeq(s.compression, k), DivSeq(s.tension, k), DivSeq(s.shear, k)))
  }

  function DivSample(r: Result<(real, real, real)>, k: real): Result<(real, real, real)>
    requires k != 0.0
  {
    match r
    case Err(e) => Err(e)
    case Ok(x) => Ok((Over(x.0, k), Over(x.1, k), Over(x.2, k)))
  }

  function DivSamples(xs: seq<Result<(real, real, real)>>, k: real): (r: seq<Result<(real, real, real)>>)
    requires k != 0.0
    ensures |r| == |xs| && forall i :: 0 <= i < |xs| ==> r[i] == DivSample(xs[i], k)
  {
    seq(|xs|, i requires 0 <= i < |xs| => DivSample(xs[i], k))
  }

  lemma DivSeqAppend(s: seq<real>, x: real, k: real)
    requires k != 0.0
    ensures DivSeq(s + [x], k) == DivSeq(s, k) + [Over(x, k)]
  {
  }

  /** Dividing every outcome divides the collected series. */
  lemma {:induction false} CollectDiv(xs: seq<Result<(real, real, real)>>, k: real)
    requires k != 0.0
    ensures Collect(DivSamples(xs, k)) == DivSeries(Collect(xs), k)
  {
    if xs != [] {
      var init := xs[..|xs| - 1];
      assert DivSamples(xs, k)[..|xs| - 1] == DivSamples(init, k);
      CollectDiv(init, k);
      var prev := Collect(init);
      var x := xs[|xs| - 1];
      if prev.Ok? && x.Ok? {
        DivSeqAppend(prev.value.compression, x.value.0, k);
        DivSeqAppend(prev.value.tension, x.value.1, k);
        DivSeqAppend(prev.value.shear, x.value.2, k);
      }
    }
  }

  /** Scaling the load by k > 0 divides the safety factors of one position by k. */
  lemma SampleScale(cs: Section, load: real, loads: seq<real>, length: real, wheels: seq<real>, m: Material, k: real)
    requires |wheels| == |loads| && k > 0.0
    ensures Sample(cs, load * k, Scale(loads, k), length, wheels, m) == DivSample(Sample(cs, load, loads, length, wheels, m), k)
  {
    UltimateStressScale(cs, load, wheels, loads, length, k);
    SafetyFactorScale((m.compressive, m.tensile), UltimateStress(cs, load, wheels, loads, length), k);
    UltimateShearStressScale(cs, load, wheels, loads, length, k);
    ShearSafetyFactorScale(m.shear, UltimateShearStress(cs, load, wheels, loads, length), k);
  }

  /** Scaling the load by k > 0 divides the safety factors at every
      placement by k. */
  lemma SamplerScale(cs: Section, load: real, loads: seq<real>, length: real, m: Material, k: real)
    requires k > 0.0
    ensures forall w :: SamplerOf(cs, load * k, Scale(loads, k), length, m)(w)
                     == DivSample(SamplerOf(cs, load, loads, length, m)(w), k)
  {
    forall w
      ensures SamplerOf(cs, load * k, Scale(loads, k), length, m)(w)
           == DivSample(SamplerOf(cs, load, loads, length, m)(w), k)
    {
      if |w| == |loads| {
        SampleScale(cs, load, loads, length, w, m, k);
      }
    }
  }

  lemma {:induction false} SamplesDiv(f: Sampler, g: Sampler, start: seq<real>, dx: real, n: nat, k: real)
    requires k != 0.0
    requires forall w :: g(w) == DivSample(f(w), k)
    ensures Samples(g, start, dx, n) == DivSamples(Samples(f, start, dx, n), k)
  {
    if n > 0 {
      SamplesDiv(f, g, start, dx, n - 1, k);
    }
  }

  /** A sampler whose outcomes are those of f divided by k gives a pass
      whose series are those of f's pass divided by k. */
  lemma PassDiv(f: Sampler, g: Sampler, length: real, wheels: seq<real>, dx: real, k: real)
    requires k != 0.0 && |wheels| > 0
    requires forall w :: g(w) == DivSample(f(w), k)
    ensures PassWith(g, length, wheels, dx) == DivSeries(PassWith(f, length, wheels, dx), k)
  {
    var start := Shift(wheels, 0.0 - wheels[0]);
    var steps := Steps(length, start, dx);
    if steps.Ok? {
      var n: nat := if steps.value < 0 then 0 else steps.value;
      SamplesDiv(f, g, start, dx, n, k);
      CollectDiv(Samples(f, start, dx, n), k);
    }
  }

  lemma ScaleOne(d: seq<real>, p: real)
    ensures Scale(Scale(d, 1.0), p) == Scale(d, p)
  {
    forall i | 0 <= i < |d|
      ensures Scale(Scale(d, 1.0), p)[i] == Scale(d, p)[i]
    {
      MulEq(d[i] * 1.0, d[i], p, p);
    }
  }

  lemma OverAtLeastOne(x: real, p: real)
    requires p > 0.0
    ensures Over(x, p) >= 1.0 <==> x >= p
  {
    if x >= p {
      assert x / p >= p / p;
    } else {
      assert x / p < p / p;
    }
  }

  /** Every entry of every series is at least t. */
  predicate AllAtLeast(s: Series, t: real)
  {
    (forall i :: 0 <= i < |s.compression| ==> s.compression[i] >= t)
    && (forall i :: 0 <= i < |s.tension| ==> s.tension[i] >= t)
    && (forall i :: 0 <= i < |s.shear| ==> s.shear[i] >= t)
  }

  lemma AtLeastDivided(s: seq<real>, p: real)
    requires p > 0.0
    ensures (forall i :: 0 <= i < |s| ==> DivSeq(s, p)[i] >= 1.0) <==> (forall i :: 0 <= i < |s| ==> s[i] >= p)
  {
    forall i | 0 <= i < |s| ensures DivSeq(s, p)[i] >= 1.0 <==> s[i] >= p {
      OverAtLeastOne(s[i], p);
    }
  }

  lemma AtLeastMin(s: seq<real>, p: real)
    requires |s| > 0
    ensures (forall i :: 0 <= i < |s| ==> s[i] >= p) <==> Min(s) >= p
  {
  }

  /** All factors of the divided series reach 1 exactly when the divisor
      is at most the smallest factor. */
  lemma SeriesCapacity(unit: Series, p: real)
    requires NonEmpty(unit) && p > 0.0
    ensures AllAtLeast(DivSeries(Ok(unit), p).value, 1.0) <==> p <= Bottleneck(unit).0
  {
    AtLeastDivided(unit.compression, p);
    AtLeastDivided(unit.tension, p);
    AtLeastDivided(unit.shear, p);
    AtLeastMin(unit.compression, p);
    AtLeastMin(unit.tension, p);
    AtLeastMin(unit.shear, p);
  }

  /** The capacity argument for any pair of samplers related by a load
      factor p. */
  lemma CapacityWith(f: Sampler, g: Sampler, length: real, wheels: seq<real>, dx: real, p: real)
    requires p > 0.0 && |wheels| > 0
    requires forall w :: g(w) == DivSample(f(w), p)
    requires MaxLoad(PassWith(f, length, wheels, dx)).Ok?
    ensures PassWith(g, length, wheels, dx).Ok?
    ensures AllAtLeast(PassWith(g, length, wheels, dx).value, 1.0)
        <==> p <= MaxLoad(PassWith(f, length, wheels, dx)).value.0
  {
    PassDiv(f, g, length, wheels, dx, p);
    SeriesCapacity(PassWith(f, length, wheels, dx).value, p);
  }

  /** The design rationale of maximum_load: when the pass at unit train
      load yields a maximum load P_max, then for every load P > 0 all safety
      factors of the pass at load P are at least 1 exactly when P <= P_max. */
  lemma MaxLoadIsCapacity(cs: Section, d: seq<real>, length: real, wheels: seq<real>, dx: real, m: Material, p: real)
    requires p > 0.0 && |wheels| > 0
    requires MaxLoad(Pass(cs, 1.0, Scale(d, 1.0), length, wheels, dx, m)).Ok?
    ensures Pass(cs, p, Scale(d, p), length, wheels, dx, m).Ok?
    ensures AllAtLeast(Pass(cs, p, Scale(d, p), length, wheels, dx, m).value, 1.0)
        <==> p <= MaxLoad(Pass(cs, 1.0, Scale(d, 1.0), length, wheels, dx, m)).value.0
  {
    SamplerScale(cs, 1.0, Scale(d, 1.0), length, m, p);
    ScaleOne(d, p);
    assert 1.0 * p == p;
    CapacityWith(SamplerOf(cs, 1.0, Scale(d, 1.0), length, m), SamplerOf(cs, p, Scale(d, p), length, m), length, wheels, dx, p);
  }

  // ---------------------------------------------------------------------
  // The evaluator

  class Evaluator {
    const bridge: BeamBridge
    const safeCompressive: real
    const safeTensile: real
    const safeShear: real
    const threshold: real
    /** The load and the first wheel position found at construction, which
        the evaluator restores after its sweeps. */
    const realTrainLoad: real
    const realTrainPosition: real

    ghost predicate Valid()
      reads bridge
    {
      bridge.Valid() && |bridge.wheels| > 0
    }

    function MaterialOf(): (m: Material)
    {
      Material(safeTensile, safeCompressive, safeShear)
    }

    constructor (bridge: BeamBridge, material: Material, threshold: real)
      requires bridge.Valid() && |bridge.wheels| > 0
      ensures Valid() && this.bridge == bridge && this.threshold == threshold
      ensures MaterialOf() == material
      ensures realTrainLoad == bridge.trainLoad && realTrainPosition == bridge.wheels[0]
    {
      this.bridge := bridge;
      safeCompressive := material.compressive;
      safeTensile := material.tensile;
      safeShear := material.shear;
      this.threshold := threshold;
      realTrainLoad := bridge.trainLoad;
      realTrainPosition := bridge.wheels[0];
    }

    /** Puts the first wheel at 0. */
    method ClearTrainPosition()
      requires Valid()
      modifies bridge`wheels
      ensures Valid()
      ensures bridge.wheels == Shift(old(bridge.wheels), 0.0 - old(bridge.wheels[0]))
    {
      var _ := bridge.PlaceTheTrain(0.0);
    }

    /** Puts the first wheel back where it was at construction. */
    method ResetTrainPosition()
      requires Valid()
      modifies bridge`wheels
      ensures Valid()
      ensures bridge.wheels == Shift(old(bridge.wheels), realTrainPosition - old(bridge.wheels[0]))
      ensures bridge.wheels[0] == realTrainPosition
    {
      var _ := bridge.PlaceTheTrain(realTrainPosition);
    }

    /** Sets a unit train load. */
    method ClearTrainLoad()
      requires Valid()
      modifies bridge`trainLoad, bridge`loads
      ensures Valid() && bridge.trainLoad == 1.0
      ensures bridge.crossSection == old(bridge.crossSection)
      ensures bridge.wheels == old(bridge.wheels)
    {
      bridge.SetTrainLoad(1.0);
    }

    /** Restores the train load found at construction. */
    method ResetTrainLoad()
      requires Valid()
      modifies bridge`trainLoad, bridge`loads
      ensures Valid() && bridge.trainLoad == realTrainLoad
      ensures bridge.crossSection == old(bridge.crossSection)
      ensures bridge.wheels == old(bridge.wheels)
    {
      bridge.SetTrainLoad(realTrainLoad);
    }

    /** Number of positions of a pass for the current placement. */
    method N(dx: real) returns (r: Result<int>)
      requires Valid()
      ensures r == Steps(bridge.length, bridge.wheels, dx)
    {
      var first := bridge.wheels[0];
      var last := bridge.wheels[|bridge.wheels| - 1];
      if dx == 0.0 {
        if last == 0.0 {
          return Err(ValueError);
        }
        return Err(OverflowError);
      }
      r := Ok(Trunc(bridge.length + first - Over(last, dx)));
    }

    /** The three safety factors at the current train position. */
    method SampleHere(ghost f: Sampler) returns (r: Result<(real, real, real)>)
      requires Valid()
      requires Agrees(f, bridge.crossSection, bridge.trainLoad, bridge.loads, bridge.length, MaterialOf())
      ensures r == f(bridge.wheels)
    {
      var flexural := bridge.ComputeSafetyFactor((safeCompressive, safeTensile));
      if flexural.Err? {
        r := Err(flexural.error);
      } else {
        var s := bridge.ComputeShearSafetyFactor(safeShear);
        if s.Err? {
          r := Err(s.error);
        } else {
          r := Ok((flexural.value.0, flexural.value.1, s.value));
        }
      }
      assert r == Sample(bridge.crossSection, bridge.trainLoad, bridge.loads, bridge.length, bridge.wheels, MaterialOf());
    }

    /** The loop of a pass: count positions from the current one, in
        steps of dx; a negative count gives no positions. f is any sampler
        that agrees with the bridge's safety factors. */
    method Drive(count: int, dx: real, ghost f: Sampler) returns (r: Result<Series>)
      requires Valid()
      requires Agrees(f, bridge.crossSection, bridge.trainLoad, bridge.loads, bridge.length, MaterialOf())
      modifies bridge`wheels
      ensures Valid()
      ensures r == Sweep(f, old(bridge.wheels), dx, if count < 0 then 0 else count)
      ensures r.Ok? ==> bridge.wheels == Shift(old(bridge.wheels), Travel(if count < 0 then 0 else count, dx))
    {
      ghost var start := bridge.wheels;
      ghost var n: nat := if count < 0 then 0 else count;
      ghost var xs := Samples(f, start, dx, n);
      var c, t, s := [], [], [];
      var k := 0;
      while k < count
        invariant 0 <= k <= n
        invariant Valid() && bridge.wheels == Shift(start, Travel(k, dx))
        invariant Agrees(f, bridge.crossSection, bridge.trainLoad, bridge.loads, bridge.length, MaterialOf())
        invariant Collect(xs[..k]) == Ok(Series(c, t, s))
      {
        var x := SampleHere(f);
        SamplesAt(f, start, dx, n, k);
        if x.Err? {
          CollectStops(xs, k);
          return Err(x.error);
        }
        CollectStep(xs, k, Series(c, t, s), x.value);
        c, t, s := c + [x.value.0], t + [x.value.1], s + [x.value.2];
        ghost var here := bridge.wheels;
        bridge.MoveTheTrain(dx);
        NextPlacement(start, here, bridge.wheels, k, dx);
        k := k + 1;
      }
      assert xs[..k] == xs;
      r := Ok(Series(c, t, s));
    }

    /** Drives the train across the bridge in steps of dx and collects the
        safety factors at every position, as given by f; on success the
        train is put back where it was at construction, keeping its wheel
        spacing. */
    method PassTheTrainWith(dx: real, ghost f: Sampler) returns (r: Result<Series>)
      requires Valid()
      requires Agrees(f, bridge.crossSection, bridge.trainLoad, bridge.loads, bridge.length, MaterialOf())
      modifies bridge`wheels
      ensures Valid()
      ensures r == PassWith(f, bridge.length, old(bridge.wheels), dx)
      ensures r.Ok? ==> MovedTo(old(bridge.wheels), realTrainPosition, bridge.wheels)
      ensures r.Ok? ==> bridge.wheels[0] == realTrainPosition
    {
      ghost var w0 := bridge.wheels;
      ClearTrainPosition();
      ghost var start := bridge.wheels;
      var n := N(dx);
      PassFrom(f, bridge.length, w0, dx, start, n);
      if n.Err? {
        return Err(n.error);
      }
      r := Drive(n.value, dx, f);
      if r.Err? {
        return;
      }
      ghost var end := bridge.wheels;
      ResetTrainPosition();
      ReturnTo(w0, start, end, bridge.wheels, Travel(if n.value < 0 then 0 else n.value, dx), realTrainPosition);
    }

    /** pass_the_train: the pass of the bridge in its current state. */
    method PassTheTrain(dx: real) returns (r: Result<Series>)
      requires Valid()
      modifies bridge`wheels
      ensures Valid()
      ensures r == old(Pass(bridge.crossSection, bridge.trainLoad, bridge.loads, bridge.length, bridge.wheels, dx, MaterialOf()))
      ensures r.Ok? ==> MovedTo(old(bridge.wheels), realTrainPosition, bridge.wheels)
      ensures r.Ok? ==> bridge.wheels[0] == realTrainPosition
    {
      SamplerOfAgrees(bridge.crossSection, bridge.trainLoad, bridge.loads, bridge.length, MaterialOf());
      r := PassTheTrainWith(dx, SamplerOf(bridge.crossSection, bridge.trainLoad, bridge.loads, bridge.length, MaterialOf()));
    }

    /** The stretches of positions where some safety factor is below the
        threshold, as (start, end) pairs scaled by dx. */
    method DeadZones(s: Series, dx: real) returns (r: seq<(real, real)>)
      requires |s.tension| == |s.shear| == |s.compression|
      ensures r == Scaled(RunsOf(Failing(s, threshold)), dx)
    {
      r := Intervals(Failing(s, threshold), dx);
    }

    /** The largest train load the bridge carries, and what fails first:
        a pass at unit load, whose smallest safety factor is that load, with
        f giving the safety factors at unit load. The construction-time load
        is restored on success. */
    method MaximumLoadWith(dx: real, ghost f: Sampler) returns (r: Result<(real, Mode)>)
      requires Valid()
      requires Agrees(f, bridge.crossSection, 1.0, Scale(bridge.distribution, 1.0), bridge.length, MaterialOf())
      modifies bridge`wheels, bridge`trainLoad, bridge`loads
      ensures Valid() && bridge.crossSection == old(bridge.crossSection)
      ensures r == MaxLoad(PassWith(f, bridge.length, old(bridge.wheels), dx))
      ensures bridge.trainLoad == if r.Ok? then realTrainLoad else 1.0
      ensures r.Ok? ==> MovedTo(old(bridge.wheels), realTrainPosition, bridge.wheels)
      ensures old(PassWith(f, bridge.length, bridge.wheels, dx)).Ok? ==> MovedTo(old(bridge.wheels), realTrainPosition, bridge.wheels)
    {
      ClearTrainLoad();
      var pass := PassTheTrainWith(dx, f);
      if pass.Err? {
        return Err(pass.error);
      }
      var series := pass.value;
      if |series.compression| == 0 || |series.tension| == 0 || |series.shear| == 0 {
        return Err(ValueError);
      }
      r := Ok(Weakest(Min(series.compression), Min(series.tension), Min(series.shear)));
      ResetTrainLoad();
    }

    /** maximum_load: the largest train load of the bridge in its current
        state. */
    method MaximumLoad(dx: real) returns (r: Result<(real, Mode)>)
      requires Valid()
      modifies bridge`wheels, bridge`trainLoad, bridge`loads
      ensures Valid() && bridge.crossSection == old(bridge.crossSection)
      ensures r == old(MaxLoad(Pass(bridge.crossSection, 1.0, Scale(bridge.distribution, 1.0), bridge.length, bridge.wheels, dx, MaterialOf())))
      ensures bridge.trainLoad == if r.Ok? then realTrainLoad else 1.0
      ensures r.Ok? ==> MovedTo(old(bridge.wheels), realTrainPosition, bridge.wheels)
      ensures old(Pass(bridge.crossSection, 1.0, Scale(bridge.distribution, 1.0), bridge.length, bridge.wheels, dx, MaterialOf())).Ok? ==>
        MovedTo(old(bridge.wheels), realTrainPosition, bridge.wheels)
    {
      SamplerOfAgrees(bridge.crossSection, 1.0, Scale(bridge.distribution, 1.0), bridge.length, MaterialOf());
      r := MaximumLoadWith(dx, SamplerOf(bridge.crossSection, 1.0, Scale(bridge.distribution, 1.0), bridge.length, MaterialOf()));
    }
  }
}
