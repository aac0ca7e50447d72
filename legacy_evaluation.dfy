/** The older evaluator: the same pass of the train as the current one, but
    dead zones handed to the older run extraction and a maximum load found by
    doubling and halving the train load until the step is small. It drives
    the current beam bridge, whose interface (train load, wheel positions,
    placing the train, shear safety factor) is the one it calls. */
module LegacyEvaluation {
  import opened Common
  import opened Geometry
  import opened Beam
  import opened Runs
  import opened Evaluation

  predicate Aligned(s: Series)
  {
    |s.tension| == |s.shear| == |s.compression|
  }

  /** Some position of the pass has a safety factor below the threshold. */
  predicate AnyFailing(s: Series, threshold: real)
    requires Aligned(s)
  {
    exists i :: 0 <= i < |s.compression| && (s.compression[i] < threshold || s.tension[i] < threshold || s.shear[i] < threshold)
  }

  /** dead_zones as written: the three masks are or-ed (numpy refuses series
      of unequal lengths), and then intervals is called with a dx keyword it
      does not take, which raises TypeError. */
  function ZonesAsWritten(pass: Result<Series>, threshold: real): (r: Result<seq<(real, real)>>)
    ensures r.Err?
    ensures pass.Err? ==> r == Err(pass.error)
    ensures pass.Ok? && Aligned(pass.value) ==> r == Err(TypeError)
  {
    match pass
    case Err(e) => Err(e)
    case Ok(s) => if Aligned(s) then Err(TypeError) else Err(ValueError)
  }

  lemma RunsExist(x: seq<bool>)
    ensures |RunsOf(x)| > 0 <==> exists i :: 0 <= i < |x| && x[i]
  {
    RunsOfDecomposition(x);
    if forall i :: 0 <= i < |x| ==> !x[i] {
      NoTrueNoRuns(x, RunsOf(x));
    }
  }

  /** dead_zones as intended: the runs of failing positions, scaled by dx.
      There is a dead zone exactly when some position fails. */
  function Zones(pass: Result<Series>, dx: real, threshold: real): (r: Result<seq<(real, real)>>)
    ensures pass.Err? ==> r == Err(pass.error)
    ensures pass.Ok? ==> (r.Ok? <==> Aligned(pass.value))
    ensures r.Ok? ==> (|r.value| > 0 <==> AnyFailing(pass.value, threshold))
  {
    match pass
    case Err(e) => Err(e)
    case Ok(s) =>
      if Aligned(s) then
        RunsExist(Failing(s, threshold));
        Ok(Scaled(RunsOf(Failing(s, threshold)), dx))
      else Err(ValueError)
  }

  /** Whether a zone list has a zone; errors pass through. */
  function Found(z: Result<seq<(real, real)>>): (r: Result<bool>)
    ensures r.Ok? <==> z.Ok?
    ensures r.Ok? ==> (r.value <==> |z.value| > 0)
  {
    match z
    case Err(e) => Err(e)
    case Ok(zs) => Ok(|zs| > 0)
  }

  /** Whether a pass at train load `load` finds a dead zone: the train of the
      given wheel spacing, loads following the distribution d. */
  function DeadAt(cs: Section, d: seq<real>, length: real, train: seq<real>, dx: real, m: Material, threshold: real, load: real): Result<bool>
    requires |train| > 0
  {
    Found(Zones(Pass(cs, load, Scale(d, load), length, train, dx, m), dx, threshold))
  }

  /** The same test with dead_zones as written. */
  function DeadAtAsWritten(cs: Section, d: seq<real>, length: real, train: seq<real>, dx: real, m: Material, threshold: real, load: real): (r: Result<bool>)
    requires |train| > 0
    ensures r.Err?
  {
    Found(ZonesAsWritten(Pass(cs, load, Scale(d, load), length, train, dx, m), threshold))
  }

  /** dead is the dead-zone test of the bridge, as a function of the load. */
  ghost predicate DeadAgrees(dead: real -> Result<bool>, cs: Section, d: seq<real>, length: real, train: seq<real>, dx: real, m: Material, threshold: real)
  {
    |train| > 0 &&
    forall load {:trigger DeadAt(cs, d, length, train, dx, m, threshold, load)} ::
      dead(load) == DeadAt(cs, d, length, train, dx, m, threshold, load)
  }

  function DeadTest(cs: Section, d: seq<real>, length: real, train: seq<real>, dx: real, m: Material, threshold: real): real -> Result<bool>
    requires |train| > 0
  {
    load => DeadAt(cs, d, length, train, dx, m, threshold, load)
  }

  function DeadTestAsWritten(cs: Section, d: seq<real>, length: real, train: seq<real>, dx: real, m: Material, threshold: real): real -> Result<bool>
    requires |train| > 0
  {
    load => DeadAtAsWritten(cs, d, length, train, dx, m, threshold, load)
  }

  // ---------------------------------------------------------------------
  // The load search

  /** How the search ends: a value returned, with the construction-time load
      restored or (the early return of 0) not; an exception; or, in the model
      only, the step budget spent with the load and step reached. */
  datatype Outcome = Returned(value: real, reset: bool) | Raised(error: Error) | Unfinished(load: real, delta: real)

  /** The search from load and step delta with at most fuel more probes:
      a step of at most 10 ends it; a dead zone halves the step and takes it
      off the load, unless the load is already below the step, which returns
      0; no dead zone doubles the step and adds it. */
  function Probe(dead: real -> Result<bool>, load: real, delta: real, fuel: nat): Outcome
    decreases fuel
  {
    if delta <= 10.0 then Returned(load, true)
    else if fuel == 0 then Unfinished(load, delta)
    else
      match dead(load)
      case Err(e) => Raised(e)
      case Ok(found) =>
        if found then
          if load < delta then Returned(0.0, false)
          else Probe(dead, load - delta * 0.5, delta * 0.5, fuel - 1)
        else Probe(dead, load + delta * 2.0, delta * 2.0, fuel - 1)
  }

  /** Once the load is at least the step, it stays so: the search never
      returns 0 and ends, if at all, on a positive load it then resets. */
  lemma {:induction false} ProbeStaysAbove(dead: real -> Result<bool>, load: real, delta: real, fuel: nat)
    requires 0.0 < delta <= load
    ensures Probe(dead, load, delta, fuel).Returned? ==>
      Probe(dead, load, delta, fuel).reset && Probe(dead, load, delta, fuel).value > 0.0
    decreases fuel
  {
    if delta > 10.0 && fuel > 0 {
      match dead(load)
      case Err(_) =>
      case Ok(found) =>
        if found {
          if load >= delta {
            ProbeStaysAbove(dead, load - delta * 0.5, delta * 0.5, fuel - 1);
          }
        } else {
          ProbeStaysAbove(dead, load + delta * 2.0, delta * 2.0, fuel - 1);
        }
    }
  }

  /** From load 1 and step 1000, the search returns 0 exactly when the first
      probe, at unit load, finds a dead zone; any other value it returns is
      positive. */
  lemma ProbeFromStart(dead: real -> Result<bool>, fuel: nat)
    requires fuel > 0
    ensures Probe(dead, 1.0, 1000.0, fuel) == Returned(0.0, false) <==> dead(1.0) == Ok(true)
    ensures Probe(dead, 1.0, 1000.0, fuel).Returned? && dead(1.0) != Ok(true) ==>
      Probe(dead, 1.0, 1000.0, fuel).reset && Probe(dead, 1.0, 1000.0, fuel).value > 0.0
  {
    if dead(1.0) == Ok(false) {
      ProbeStaysAbove(dead, 2001.0, 2000.0, fuel - 1);
    }
  }

  /** A bridge that never shows a dead zone keeps the step growing: no step
      budget is enough, the loop of the source does not terminate. */
  lemma {:induction false} ProbeNeverEnds(dead: real -> Result<bool>, load: real, delta: real, fuel: nat)
    requires forall l :: dead(l) == Ok(false)
    requires delta > 10.0
    ensures Probe(dead, load, delta, fuel).Unfinished?
    decreases fuel
  {
    if fuel > 0 {
      assert dead(load) == Ok(false);
      ProbeNeverEnds(dead, load + delta * 2.0, delta * 2.0, fuel - 1);
    }
  }

  /** With dead_zones as written the first probe raises, so maximum_load
      always raises, with the train load left at 1. */
  lemma ProbeAsWrittenRaises(cs: Section, d: seq<real>, length: real, train: seq<real>, dx: real, m: Material, threshold: real, fuel: nat)
    requires |train| > 0 && fuel > 0
    ensures Probe(DeadTestAsWritten(cs, d, length, train, dx, m, threshold), 1.0, 1000.0, fuel).Raised?
  {
    assert DeadTestAsWritten(cs, d, length, train, dx, m, threshold)(1.0).Err?;
  }

  /** The pass depends on the wheels only through their spacing. */
  lemma DeadHere(cs: Section, d: seq<real>, length: real, w: seq<real>, dx: real, m: Material, threshold: real, load: real)
    requires |w| > 0
    ensures DeadAt(cs, d, length, Normal(w), dx, m, threshold, load)
         == Found(Zones(Pass(cs, load, Scale(d, load), length, w, dx, m), dx, threshold))
  {
    PassNormal(SamplerOf(cs, load, Scale(d, load), length, m), length, w, dx);
  }

  // ---------------------------------------------------------------------
  // The evaluator

  class LegacyEvaluator {
    /** The evaluator state shared with the current package: the bridge, the
        material, the threshold, and the load and position snapshots. */
    const evaluator: Evaluator

    ghost predicate Valid()
      reads evaluator.bridge
    {
      evaluator.Valid()
    }

    constructor (evaluator: Evaluator)
      requires evaluator.Valid()
      ensures Valid() && this.evaluator == evaluator
    {
      this.evaluator := evaluator;
    }

    /** dead_zones as written: the pass, then the failing call of intervals. */
    method DeadZonesAsWritten(dx: real) returns (r: Result<seq<(real, real)>>)
      requires Valid()
      modifies evaluator.bridge`wheels
      ensures Valid()
      ensures r == old(ZonesAsWritten(Pass(evaluator.bridge.crossSection, evaluator.bridge.trainLoad, evaluator.bridge.loads,
                                            evaluator.bridge.length, evaluator.bridge.wheels, dx, evaluator.MaterialOf()),
                                       evaluator.threshold))
      ensures old(Pass(evaluator.bridge.crossSection, evaluator.bridge.trainLoad, evaluator.bridge.loads,
                       evaluator.bridge.length, evaluator.bridge.wheels, dx, evaluator.MaterialOf())).Ok? ==>
        MovedTo(old(evaluator.bridge.wheels), evaluator.realTrainPosition, evaluator.bridge.wheels)
    {
      var pass := evaluator.PassTheTrain(dx);
      if pass.Err? {
        return Err(pass.error);
      }
      var s := pass.value;
      if !Aligned(s) {
        return Err(ValueError);
      }
      r := Err(TypeError);
    }

    /** dead_zones with the step handed to the run extraction that takes it. */
    method DeadZones(dx: real) returns (r: Result<seq<(real, real)>>)
      requires Valid()
      modifies evaluator.bridge`wheels
      ensures Valid()
      ensures r == old(Zones(Pass(evaluator.bridge.crossSection, evaluator.bridge.trainLoad, evaluator.bridge.loads,
                                  evaluator.bridge.length, evaluator.bridge.wheels, dx, evaluator.MaterialOf()),
                             dx, evaluator.threshold))
      ensures r.Ok? ==> MovedTo(old(evaluator.bridge.wheels), evaluator.realTrainPosition, evaluator.bridge.wheels)
    {
      var pass := evaluator.PassTheTrain(dx);
      if pass.Err? {
        return Err(pass.error);
      }
      var s := pass.value;
      if !Aligned(s) {
        return Err(ValueError);
      }
      var zones := Intervals(Failing(s, evaluator.threshold), dx);
      r := Ok(zones);
    }

    /** The dead_zones call of the load search, with the repaired dead_zones
        (Zones), stated through dead: its zones are found exactly when dead
        says so at the current load. */
    method DeadZonesProbe(dx: real, ghost dead: real -> Result<bool>, ghost train: seq<real>) returns (r: Result<seq<(real, real)>>)
      requires Valid() && |evaluator.bridge.wheels| > 0 && Normal(evaluator.bridge.wheels) == train
      requires DeadAgrees(dead, evaluator.bridge.crossSection, evaluator.bridge.distribution, evaluator.bridge.length,
                          train, dx, evaluator.MaterialOf(), evaluator.threshold)
      modifies evaluator.bridge`wheels
      ensures Valid() && Found(r) == dead(evaluator.bridge.trainLoad)
      ensures r.Ok? ==> |evaluator.bridge.wheels| > 0 && Normal(evaluator.bridge.wheels) == train
      ensures r.Ok? ==> MovedTo(old(evaluator.bridge.wheels), evaluator.realTrainPosition, evaluator.bridge.wheels)
    {
      var bridge := evaluator.bridge;
      DeadHere(bridge.crossSection, bridge.distribution, bridge.length, bridge.wheels, dx, evaluator.MaterialOf(),
               evaluator.threshold, bridge.trainLoad);
      ghost var w := bridge.wheels;
      r := DeadZones(dx);
      if r.Ok? {
        MovedNormal(w, evaluator.realTrainPosition, bridge.wheels);
      }
    }

    /** The rest of a round of the search loop of maximum_load, once the
        dead zones at the current load are known to be found or not: the
        early return of 0, or the load moved by the halved or doubled step.
        Either way the search's answer, as Probe computes it, is kept. */
    method Adjust(found: bool, delta: real, ghost dead: real -> Result<bool>, ghost left: nat, ghost first: bool)
      returns (stop: bool, next: real)
      requires Valid() && dead(evaluator.bridge.trainLoad) == Ok(found)
      requires left > 0 && delta > 10.0
      requires (first ==> evaluator.bridge.trainLoad == 1.0) && (!first ==> delta <= evaluator.bridge.trainLoad)
      modifies evaluator.bridge`trainLoad, evaluator.bridge`loads
      ensures Valid() && evaluator.bridge.crossSection == old(evaluator.bridge.crossSection)
      ensures evaluator.bridge.wheels == old(evaluator.bridge.wheels)
      ensures stop ==> Probe(dead, old(evaluator.bridge.trainLoad), delta, left) == Returned(0.0, false)
      ensures stop ==> evaluator.bridge.trainLoad == 1.0
      ensures !stop ==> 0.0 < next <= evaluator.bridge.trainLoad
      ensures !stop ==> Probe(dead, evaluator.bridge.trainLoad, next, left - 1) == Probe(dead, old(evaluator.bridge.trainLoad), delta, left)
    {
      var bridge := evaluator.bridge;
      if found {
        if bridge.trainLoad < delta {
          return true, delta;
        }
        next := delta * 0.5;
        bridge.AddTrainLoad(-next);
      } else {
        next := delta * 2.0;
        bridge.AddTrainLoad(next);
      }
      stop := false;
    }

    /** maximum_load with the repaired dead_zones (Zones), with dead given as
        the bridge's dead-zone test and at most fuel probes. */
    method MaximumLoadWith(dx: real, fuel: nat, ghost dead: real -> Result<bool>) returns (r: Outcome)
      requires Valid()
      requires DeadAgrees(dead, evaluator.bridge.crossSection, evaluator.bridge.distribution, evaluator.bridge.length,
                          Normal(evaluator.bridge.wheels), dx, evaluator.MaterialOf(), evaluator.threshold)
      modifies evaluator.bridge`wheels, evaluator.bridge`trainLoad, evaluator.bridge`loads
      ensures Valid() && evaluator.bridge.crossSection == old(evaluator.bridge.crossSection)
      ensures r == Probe(dead, 1.0, 1000.0, fuel)
      ensures r.Returned? && r.reset ==> evaluator.bridge.trainLoad == evaluator.realTrainLoad
      ensures r.Returned? && !r.reset ==> evaluator.bridge.trainLoad == 1.0
      ensures r.Unfinished? ==> evaluator.bridge.trainLoad == r.load
      ensures r.Returned? ==> MovedTo(old(evaluator.bridge.wheels), evaluator.realTrainPosition, evaluator.bridge.wheels)
    {
      var bridge := evaluator.bridge;
      ghost var train := Normal(bridge.wheels);
      evaluator.ClearTrainLoad();
      var delta := 1000.0;
      var left := fuel;
      ghost var first := true;
      while delta > 10.0
        invariant Valid() && bridge.crossSection == old(bridge.crossSection)
        invariant |bridge.wheels| > 0 && Normal(bridge.wheels) == train
        invariant DeadAgrees(dead, bridge.crossSection, bridge.distribution, bridge.length, train, dx, evaluator.MaterialOf(), evaluator.threshold)
        invariant 0.0 < delta && (first ==> bridge.trainLoad == 1.0) && (!first ==> delta <= bridge.trainLoad)
        invariant Probe(dead, bridge.trainLoad, delta, left) == Probe(dead, 1.0, 1000.0, fuel)
        invariant first ==> delta == 1000.0 && bridge.wheels == old(bridge.wheels)
        invariant !first ==> MovedTo(old(bridge.wheels), evaluator.realTrainPosition, bridge.wheels)
        decreases left
      {
        if left == 0 {
          return Unfinished(bridge.trainLoad, delta);
        }
        ghost var before := bridge.wheels;
        var zones := DeadZonesProbe(dx, dead, train);
        if zones.Err? {
          return Raised(zones.error);
        }
        if !first {
          ShiftShift(old(bridge.wheels), evaluator.realTrainPosition - old(bridge.wheels)[0], evaluator.realTrainPosition - before[0]);
        }
        var stop, next := Adjust(|zones.value| > 0, delta, dead, left, first);
        if stop {
          return Returned(0.0, false);
        }
        delta := next;
        first := false;
        left := left - 1;
      }
      r := Returned(bridge.trainLoad, true);
      evaluator.ResetTrainLoad();
    }

    /** maximum_load of the bridge in its current state, with the repaired
        dead_zones (Zones) and at most fuel probes. */
    method MaximumLoad(dx: real, fuel: nat) returns (r: Outcome)
      requires Valid()
      modifies evaluator.bridge`wheels, evaluator.bridge`trainLoad, evaluator.bridge`loads
      ensures Valid() && evaluator.bridge.crossSection == old(evaluator.bridge.crossSection)
      ensures r == old(Probe(DeadTest(evaluator.bridge.crossSection, evaluator.bridge.distribution, evaluator.bridge.length,
                                      Normal(evaluator.bridge.wheels), dx, evaluator.MaterialOf(), evaluator.threshold),
                             1.0, 1000.0, fuel))
      ensures r.Returned? && r.reset ==> evaluator.bridge.trainLoad == evaluator.realTrainLoad
      ensures r.Returned? && !r.reset ==> evaluator.bridge.trainLoad == 1.0
      ensures r.Returned? ==> MovedTo(old(evaluator.bridge.wheels), evaluator.realTrainPosition, evaluator.bridge.wheels)
    {
      var b := evaluator.bridge;
      r := MaximumLoadWith(dx, fuel, DeadTest(b.crossSection, b.distribution, b.length, Normal(b.wheels), dx, evaluator.MaterialOf(), evaluator.threshold));
    }
  }
}
