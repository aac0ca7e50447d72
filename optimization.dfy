/** The design search of the current package: candidate values around a
    section's own parameters, a grid search that keeps the best point seen so
    far, and an optimiser whose criterion installs each candidate section on
    the bridge and probes its maximum load. */
module Optimization {
  import opened Common
  import opened Geometry
  import opened Beam
  import opened Evaluation

  /** A point of the search: keyword arguments of a section constructor. */
  type Params = KwargMap

  /** (start, end, step) of one parameter. */
  type Range = (real, real, real)

  // ---------------------------------------------------------------------
  // Candidate values

  /** Python's math.ceil of a real. */
  function Ceil(x: real): (n: int)
    ensures x <= n as real < x + 1.0
  {
    -((-x).Floor)
  }

  /** numpy's arange(start, stop, step): start, start + step, ... while short
      of stop; a zero step is a division by zero. */
  function Arange(start: real, stop: real, step: real): (r: Result<seq<real>>)
    ensures r.Err? <==> step == 0.0
    ensures r.Err? ==> r.error == ZeroDivisionError
  {
    if step == 0.0 then Err(ZeroDivisionError)
    else
      var n := Ceil((stop - start) / step);
      Ok(seq(if n < 0 then 0 else n, k requires 0 <= k => start + Times(k as real, step)))
  }

  /** A term of the progression before the quotient lies below stop. */
  lemma TermBelow(start: real, stop: real, step: real, x: real)
    requires step > 0.0 && x < (stop - start) / step
    ensures start + Times(x, step) < stop
  {
    MulMonoStrict(x, (stop - start) / step, step);
  }

  /** A term of the progression at or past the quotient reaches stop. */
  lemma TermReaches(start: real, stop: real, step: real, x: real)
    requires step > 0.0 && (stop - start) / step <= x
    ensures stop <= start + Times(x, step)
  {
    MulMono((stop - start) / step, x, step);
  }

  /** Every element of s is the term of the progression from start at its
      index, and lies below stop. */
  ghost predicate TermsBelow(s: seq<real>, start: real, stop: real, step: real)
  {
    forall k :: 0 <= k < |s| ==> s[k] == start + Times(k as real, step) < stop
  }

  /** The k-th element of arange with a positive step. */
  lemma ArangeAt(start: real, stop: real, step: real, k: int)
    requires step > 0.0 && 0 <= k < |Arange(start, stop, step).value|
    ensures Arange(start, stop, step).value[k] == start + Times(k as real, step) < stop
  {
    var n := Ceil((stop - start) / step);
    assert k <= n - 1;
    TermBelow(start, stop, step, k as real);
  }

  /** With a positive step, arange lists exactly the terms of the progression
      from start that lie below stop. */
  lemma ArangeProgression(start: real, stop: real, step: real)
    requires step > 0.0
    ensures Arange(start, stop, step).Ok?
    ensures TermsBelow(Arange(start, stop, step).value, start, stop, step)
    ensures stop <= start + Times(|Arange(start, stop, step).value| as real, step)
  {
    var s := Arange(start, stop, step).value;
    forall k | 0 <= k < |s|
      ensures s[k] == start + Times(k as real, step) < stop
    {
      ArangeAt(start, stop, step, k);
    }
    var n := Ceil((stop - start) / step);
    if n > 0 {
      assert |s| == n;
      TermReaches(start, stop, step, |s| as real);
    } else {
      TermReaches(start, stop, step, 0.0);
    }
  }

  /** The range the optimiser searches around a keyword value v: from
      0.5 v to 1.5 v in steps of 0.1 v. */
  function Around(v: real): Range
  {
    (v * 0.5, v * 1.5, v * 0.1)
  }

  /** The ranges the optimiser searches, one per keyword. */
  function ParamRanges(kw: Params): (r: map<Key, Range>)
    ensures r.Keys == kw.Keys && forall k :: k in kw ==> r[k] == Around(kw[k])
  {
    map k | k in kw :: Around(kw[k])
  }

  /** The candidate values of one range: arange(start, end + step, step). */
  function Candidates(rg: Range): Result<seq<real>>
  {
    Arange(rg.0, rg.1 + rg.2, rg.2)
  }

  /** Around a non-zero value v the candidates are the eleven values
      0.5 v, 0.6 v, ..., 1.5 v, which include v itself; around 0 the step is
      zero. */
  lemma CandidatesAround(v: real)
    ensures v == 0.0 ==> Candidates(Around(v)) == Err(ZeroDivisionError)
    ensures v != 0.0 ==> Candidates(Around(v)).Ok? && |Candidates(Around(v)).value| == 11
    ensures v != 0.0 ==> forall k :: 0 <= k < |Candidates(Around(v)).value| ==>
      Candidates(Around(v)).value[k] == v * 0.5 + Times(k as real, v * 0.1)
    ensures v != 0.0 ==> Candidates(Around(v)).value[5] == v
    ensures v != 0.0 ==> Candidates(Around(v)).value[10] == v * 1.5
  {
    if v != 0.0 {
      var step := v * 0.1;
      assert v * 1.5 + step - v * 0.5 == 11.0 * step;
      DivExact(v * 1.5 + step - v * 0.5, step, 11.0);
      assert Ceil(11.0) == 11;
    }
  }

  /** The arange of every range: the first zero step raises. */
  function GridCheck(ranges: map<Key, Range>): (r: Result<()>)
    ensures r.Err? <==> exists k :: k in ranges && Candidates(ranges[k]).Err?
  {
    if exists k :: k in ranges && ranges[k].2 == 0.0 then Err(ZeroDivisionError) else Ok(())
  }

  /** The optimiser's ranges fail exactly when a keyword value is zero. */
  lemma RangesCheck(kw: Params)
    ensures GridCheck(ParamRanges(kw)).Err? <==> exists k :: k in kw && kw[k] == 0.0
  {
    if exists k :: k in kw && kw[k] == 0.0 {
      var k :| k in kw && kw[k] == 0.0;
      assert ParamRanges(kw)[k].2 == 0.0;
    }
  }

  // ---------------------------------------------------------------------
  // Grid search

  /** The scores of the points, in order. */
  function Scores(points: seq<Params>, criterion: Params -> Result<real>): (s: seq<Result<real>>)
    ensures |s| == |points| && forall i :: 0 <= i < |points| ==> s[i] == criterion(points[i])
  {
    seq(|points|, i requires 0 <= i < |points| => criterion(points[i]))
  }

  /** The best point after the given scores: it starts as ({}, 0) and only a
      strictly greater score replaces it; a criterion that raises ends the
      search. */
  function Search(points: seq<Params>, scores: seq<Result<real>>): Result<(Params, real)>
    requires |points| == |scores|
  {
    if points == [] then Ok((map[], 0.0))
    else
      var n := |points| - 1;
      match Search(points[..n], scores[..n])
      case Err(e) => Err(e)
      case Ok(best) =>
        match scores[n]
        case Err(e) => Err(e)
        case Ok(s) => if s > best.1 then Ok((points[n], s)) else Ok(best)
  }

  /** Index i holds the first largest of the scores, all of which are
      values, and that largest score is positive. */
  predicate FirstBest(scores: seq<Result<real>>, i: int)
  {
    0 <= i < |scores| && (forall j :: 0 <= j < |scores| ==> scores[j].Ok?)
    && scores[i].value > 0.0
    && (forall j :: 0 <= j < i ==> scores[j].value < scores[i].value)
    && (forall j :: i <= j < |scores| ==> scores[j].value <= scores[i].value)
  }

  lemma SearchStep(points: seq<Params>, scores: seq<Result<real>>, k: nat, best: (Params, real), s: real)
    requires |points| == |scores| && k < |points|
    requires Search(points[..k], scores[..k]) == Ok(best) && scores[k] == Ok(s)
    ensures Search(points[..k + 1], scores[..k + 1]) == if s > best.1 then Ok((points[k], s)) else Ok(best)
  {
    assert points[..k + 1][..k] == points[..k];
    assert scores[..k + 1][..k] == scores[..k];
  }

  /** A criterion that raises after successful ones ends the search with
      its error. */
  lemma {:induction false} SearchStops(points: seq<Params>, scores: seq<Result<real>>, k: nat)
    requires |points| == |scores| && k < |points|
    requires Search(points[..k], scores[..k]).Ok? && scores[k].Err?
    ensures Search(points, scores) == Err(scores[k].error)
  {
    var n := |points| - 1;
    if n > k {
      assert points[..n][..k] == points[..k] && scores[..n][..k] == scores[..k];
      SearchStops(points[..n], scores[..n], k);
    } else {
      assert points[..n] == points[..k] && scores[..n] == scores[..k];
    }
  }

  /** When every score is a value, the search returns a score no smaller
      than 0 and than any of them; a positive result is the first best
      point, and without a positive score the result is ({}, 0). */
  lemma {:induction false} SearchBest(points: seq<Params>, scores: seq<Result<real>>)
    requires |points| == |scores| && forall j :: 0 <= j < |scores| ==> scores[j].Ok?
    ensures Search(points, scores).Ok?
    ensures Search(points, scores).value.1 >= 0.0
    ensures forall j :: 0 <= j < |scores| ==> scores[j].value <= Search(points, scores).value.1
    ensures Search(points, scores).value.1 > 0.0 ==>
      exists i :: FirstBest(scores, i) && points[i] == Search(points, scores).value.0
                  && scores[i].value == Search(points, scores).value.1
    ensures Search(points, scores).value.1 == 0.0 ==> Search(points, scores).value.0 == map[]
  {
    if points != [] {
      var n := |points| - 1;
      var ps, ss := points[..n], scores[..n];
      assert forall j :: 0 <= j < n ==> ss[j] == scores[j];
      SearchBest(ps, ss);
      var best := Search(ps, ss).value;
      var s := scores[n].value;
      if s > best.1 {
        assert FirstBest(scores, n);
      } else if best.1 > 0.0 {
        var i :| FirstBest(ss, i) && ps[i] == best.0 && ss[i].value == best.1;
        assert FirstBest(scores, i);
      }
    }
  }

  /** The first best point is what the search returns: the search is the
      first maximum of the scores over the positive ones. */
  lemma SearchFindsFirstBest(points: seq<Params>, scores: seq<Result<real>>, i: int)
    requires |points| == |scores| && FirstBest(scores, i)
    ensures Search(points, scores) == Ok((points[i], scores[i].value))
  {
    SearchBest(points, scores);
    var i' :| FirstBest(scores, i') && points[i'] == Search(points, scores).value.0
              && scores[i'].value == Search(points, scores).value.1;
    assert i == i';
  }

  /** The search raises exactly when some score is an error. */
  lemma {:induction false} SearchErrors(points: seq<Params>, scores: seq<Result<real>>)
    requires |points| == |scores|
    ensures Search(points, scores).Err? <==> exists j :: 0 <= j < |scores| && scores[j].Err?
  {
    if points != [] {
      var n := |points| - 1;
      var ss := scores[..n];
      assert forall j :: 0 <= j < n ==> ss[j] == scores[j];
      SearchErrors(points[..n], ss);
    }
  }

  /** It raises the first error among the scores. */
  lemma FirstErr(points: seq<Params>, scores: seq<Result<real>>, k: int)
    requires |points| == |scores| && 0 <= k < |scores| && scores[k].Err?
    requires forall j :: 0 <= j < k ==> scores[j].Ok?
    ensures Search(points, scores) == Err(scores[k].error)
  {
    assert forall j :: 0 <= j < k ==> scores[..k][j] == scores[j];
    SearchBest(points[..k], scores[..k]);
    SearchStops(points, scores, k);
  }

  /** grid_search: the aranges of every range, then the best point over the
      enumeration of the candidate grid, scored by criterion in order. */
  function GridResult(ranges: map<Key, Range>, points: seq<Params>, criterion: Params -> Result<real>): Result<(Params, real)>
  {
    match GridCheck(ranges)
    case Err(e) => Err(e)
    case Ok(_) => Search(points, Scores(points, criterion))
  }

  /** grid_search as the loop that keeps the best point so far. */
  method GridSearch(ranges: map<Key, Range>, points: seq<Params>, criterion: Params -> Result<real>)
    returns (r: Result<(Params, real)>)
    ensures r == GridResult(ranges, points, criterion)
  {
    if exists k :: k in ranges && ranges[k].2 == 0.0 {
      return Err(ZeroDivisionError);
    }
    ghost var scores := Scores(points, criterion);
    var bestParams: Params := map[];
    var bestScore := 0.0;
    var i := 0;
    while i < |points|
      invariant 0 <= i <= |points|
      invariant Search(points[..i], scores[..i]) == Ok((bestParams, bestScore))
    {
      var score := criterion(points[i]);
      if score.Err? {
        SearchStops(points, scores, i);
        return Err(score.error);
      }
      SearchStep(points, scores, i, (bestParams, bestScore), score.value);
      if score.value > bestScore {
        bestScore := score.value;
        bestParams := points[i];
      }
      i := i + 1;
    }
    assert points[..i] == points && scores[..i] == scores;
    r := Ok((bestParams, bestScore));
  }

  // ---------------------------------------------------------------------
  // The optimiser

  /** load_criterion as a value: the section of the search's class built from
      params, then the maximum load of a unit-load pass in steps of 1. */
  function LoadScore(t: SectionType, params: Params, d: seq<real>, length: real, wheels: seq<real>, m: Material): Result<real>
    requires |wheels| > 0
  {
    match FromKwargs(t, params)
    case Err(e) => Err(e)
    case Ok(cs) =>
      match MaxLoad(Pass(cs, 1.0, Scale(d, 1.0), length, wheels, 1.0, m))
      case Err(e) => Err(e)
      case Ok(best) => Ok(best.0)
  }

  /** The criterion depends on the train only through its wheel spacing. */
  lemma LoadScoreNormal(t: SectionType, params: Params, d: seq<real>, length: real, w: seq<real>, m: Material)
    requires |w| > 0
    ensures LoadScore(t, params, d, length, Normal(w), m) == LoadScore(t, params, d, length, w, m)
  {
    var cs := FromKwargs(t, params);
    if cs.Ok? {
      PassNormal(SamplerOf(cs.value, 1.0, Scale(d, 1.0), length, m), length, w, 1.0);
    }
  }

  /** criterion is load_criterion for sections of class t on a train with
      the given wheel spacing. */
  ghost predicate ScoresLoad(criterion: Params -> Result<real>, t: SectionType, d: seq<real>, length: real, train: seq<real>, m: Material)
  {
    |train| > 0 &&
    forall p {:trigger LoadScore(t, p, d, length, train, m)} :: criterion(p) == LoadScore(t, p, d, length, train, m)
  }

  /** optimize_cross_section as a value: the grid search over the points,
      with the candidate ranges around the section's keywords, then the
      section of class t rebuilt from the best point. */
  function Optimal(t: SectionType, kw: Params, points: seq<Params>, criterion: Params -> Result<real>): Result<(Section, real)>
  {
    match GridResult(ParamRanges(kw), points, criterion)
    case Err(e) => Err(e)
    case Ok(best) =>
      match FromKwargs(t, best.0)
      case Err(e) => Err(e)
      case Ok(cs) => Ok((cs, best.1))
  }

  /** A section without keywords is built only by the girder class, whose
      defaults make the default girder. */
  lemma EmptyParams(t: SectionType)
    ensures FromKwargs(t, map[]).Ok? <==> t == GirderType
    ensures t == GirderType ==> FromKwargs(t, map[]) == Ok(DefaultCIV102Beam())
  {
    var none: Params := map[];
    assert Name("b") !in none && Name("r") !in none;
  }

  /** What the optimiser returns, in terms of the criterion: a score no
      smaller than 0 and than any candidate's; a positive score comes with
      the section of the first candidate that reaches it; without a positive
      score, only a girder search succeeds, and it returns the default
      girder. */
  lemma OptimalBestOf(t: SectionType, kw: Params, points: seq<Params>, criterion: Params -> Result<real>)
    requires Optimal(t, kw, points, criterion).Ok?
    ensures forall i :: 0 <= i < |points| ==>
      criterion(points[i]).Ok? && criterion(points[i]).value <= Optimal(t, kw, points, criterion).value.1
    ensures Optimal(t, kw, points, criterion).value.1 >= 0.0
    ensures Optimal(t, kw, points, criterion).value.1 > 0.0 ==>
      exists i :: 0 <= i < |points|
        && criterion(points[i]) == Ok(Optimal(t, kw, points, criterion).value.1)
        && FromKwargs(t, points[i]) == Ok(Optimal(t, kw, points, criterion).value.0)
        && forall j :: 0 <= j < i ==> criterion(points[j]).value < Optimal(t, kw, points, criterion).value.1
    ensures Optimal(t, kw, points, criterion).value.1 == 0.0 ==>
      t == GirderType && Optimal(t, kw, points, criterion).value.0 == DefaultCIV102Beam()
  {
    var scores := Scores(points, criterion);
    SearchErrors(points, scores);
    SearchBest(points, scores);
    EmptyParams(t);
    var best := Search(points, scores).value;
    var o := Optimal(t, kw, points, criterion).value;
    assert o.1 == best.1 && FromKwargs(t, best.0) == Ok(o.0);
    if best.1 > 0.0 {
      var i :| FirstBest(scores, i) && points[i] == best.0 && scores[i].value == best.1;
      assert criterion(points[i]) == Ok(o.1);
    }
  }

  /** With the criterion that scores each candidate by the maximum load of
      the bridge built with it, every candidate's load is at most the
      optimiser's. */
  lemma OptimalBest(t: SectionType, kw: Params, points: seq<Params>, criterion: Params -> Result<real>,
                    d: seq<real>, length: real, train: seq<real>, m: Material)
    requires ScoresLoad(criterion, t, d, length, train, m) && Optimal(t, kw, points, criterion).Ok?
    ensures forall i :: 0 <= i < |points| ==>
      LoadScore(t, points[i], d, length, train, m).Ok?
      && LoadScore(t, points[i], d, length, train, m).value <= Optimal(t, kw, points, criterion).value.1
  {
    OptimalBestOf(t, kw, points, criterion);
  }

  /** ... and a positive optimum is the load of a candidate whose section
      the optimiser returns. */
  lemma OptimalReached(t: SectionType, kw: Params, points: seq<Params>, criterion: Params -> Result<real>,
                       d: seq<real>, length: real, train: seq<real>, m: Material)
    requires ScoresLoad(criterion, t, d, length, train, m) && Optimal(t, kw, points, criterion).Ok?
    requires Optimal(t, kw, points, criterion).value.1 > 0.0
    ensures exists i ::
      0 <= i < |points|
      && LoadScore(t, points[i], d, length, train, m) == Ok(Optimal(t, kw, points, criterion).value.1)
      && FromKwargs(t, points[i]) == Ok(Optimal(t, kw, points, criterion).value.0)
  {
    OptimalBestOf(t, kw, points, criterion);
    var o := Optimal(t, kw, points, criterion).value;
    var i :| 0 <= i < |points| && criterion(points[i]) == Ok(o.1) && FromKwargs(t, points[i]) == Ok(o.0)
             && forall j :: 0 <= j < i ==> criterion(points[j]).value < o.1;
    assert LoadScore(t, points[i], d, length, train, m) == Ok(o.1);
  }

  /** A glued girder lists glue_y among its keywords, which the girder class
      does not accept: a search whose first point carries it raises. */
  lemma GluedGirderFails(kw: Params, points: seq<Params>, criterion: Params -> Result<real>,
                         d: seq<real>, length: real, train: seq<real>, m: Material)
    requires ScoresLoad(criterion, GirderType, d, length, train, m)
    requires |points| > 0 && Name("glue_y") in points[0] && GridCheck(ParamRanges(kw)).Ok?
    ensures Optimal(GirderType, kw, points, criterion) == Err(TypeError)
  {
    var scores := Scores(points, criterion);
    GlueYRejected(points[0]);
    assert LoadScore(GirderType, points[0], d, length, train, m) == Err(TypeError);
    FirstErr(points, scores, 0);
  }

  /** The optimiser of a beam bridge's section. */
  class BeamOptimizer {
    const evaluator: Evaluator
    const bridge: BeamBridge
    /** The class of the bridge's section at construction. */
    const csType: SectionType
    /** The train relative to its first wheel, which passes keep. */
    ghost const train: seq<real>
    /** load_criterion as a function of the point. */
    ghost const criterion: Params -> Result<real>

    ghost predicate Valid()
      reads bridge
    {
      bridge == evaluator.bridge && evaluator.Valid()
      && ScoresLoad(criterion, csType, bridge.distribution, bridge.length, train, evaluator.MaterialOf())
    }

    constructor (evaluator: Evaluator)
      requires evaluator.Valid()
      ensures Valid() && this.evaluator == evaluator
      ensures csType == TypeOf(evaluator.bridge.crossSection) && train == Normal(evaluator.bridge.wheels)
    {
      this.evaluator := evaluator;
      bridge := evaluator.bridge;
      var t := TypeOf(evaluator.bridge.crossSection);
      var d, length, m := evaluator.bridge.distribution, evaluator.bridge.length, evaluator.MaterialOf();
      ghost var tr := Normal(evaluator.bridge.wheels);
      csType := t;
      train := tr;
      criterion := p => LoadScore(t, p, d, length, tr, m);
    }

    /** load_criterion: installs the section built from params on the
        bridge, then returns the evaluator's maximum load. */
    method LoadCriterion(params: Params) returns (r: Result<real>)
      requires Valid() && Normal(bridge.wheels) == train
      modifies bridge`crossSection, bridge`wheels, bridge`trainLoad, bridge`loads
      ensures Valid() && r == criterion(params)
      ensures FromKwargs(csType, params).Ok? ==> FromKwargs(csType, params) == Ok(bridge.crossSection)
      ensures r.Ok? ==> FromKwargs(csType, params) == Ok(bridge.crossSection)
      ensures r.Ok? ==> MovedTo(old(bridge.wheels), evaluator.realTrainPosition, bridge.wheels)
      ensures r.Ok? ==> Normal(bridge.wheels) == train && bridge.trainLoad == evaluator.realTrainLoad
      ensures FromKwargs(csType, params).Err? ==>
        bridge.wheels == old(bridge.wheels) && bridge.trainLoad == old(bridge.trainLoad)
        && bridge.crossSection == old(bridge.crossSection)
      ensures r.Err? && FromKwargs(csType, params).Ok? ==> bridge.trainLoad == 1.0
    {
      LoadScoreNormal(csType, params, bridge.distribution, bridge.length, bridge.wheels, evaluator.MaterialOf());
      var cs := FromKwargs(csType, params);
      if cs.Err? {
        return Err(cs.error);
      }
      bridge.SetCrossSection(cs.value);
      var best := evaluator.MaximumLoad(1.0);
      if best.Err? {
        return Err(best.error);
      }
      r := Ok(best.value.0);
      MovedNormal(old(bridge.wheels), evaluator.realTrainPosition, bridge.wheels);
    }

    /** grid_search with load_criterion as its criterion, over the given
        enumeration of the grid: the bridge keeps the section of the last
        point scored, not the best one. */
    method GridSearchLoad(ranges: map<Key, Range>, points: seq<Params>) returns (r: Result<(Params, real)>)
      requires Valid() && Normal(bridge.wheels) == train
      modifies bridge`crossSection, bridge`wheels, bridge`trainLoad, bridge`loads
      ensures Valid()
      ensures r == GridResult(ranges, points, criterion)
      ensures r.Ok? ==> Normal(bridge.wheels) == train
      ensures r.Ok? && |points| > 0 ==> FromKwargs(csType, points[|points| - 1]) == Ok(bridge.crossSection)
      ensures r.Ok? && |points| > 0 ==> MovedTo(old(bridge.wheels), evaluator.realTrainPosition, bridge.wheels)
      ensures r.Ok? && |points| > 0 ==> bridge.trainLoad == evaluator.realTrainLoad
      ensures GridCheck(ranges).Err? || |points| == 0 ==>
        bridge.wheels == old(bridge.wheels) && bridge.trainLoad == old(bridge.trainLoad)
        && bridge.crossSection == old(bridge.crossSection)
    {
      ghost var scores := Scores(points, criterion);
      if exists k :: k in ranges && ranges[k].2 == 0.0 {
        return Err(ZeroDivisionError);
      }
      var bestParams: Params := map[];
      var bestScore := 0.0;
      var i := 0;
      while i < |points|
        invariant 0 <= i <= |points|
        invariant Valid() && Normal(bridge.wheels) == train
        invariant Search(points[..i], scores[..i]) == Ok((bestParams, bestScore))
        invariant i > 0 ==> FromKwargs(csType, points[i - 1]) == Ok(bridge.crossSection)
        invariant i > 0 ==> MovedTo(old(bridge.wheels), evaluator.realTrainPosition, bridge.wheels)
        invariant i > 0 ==> bridge.trainLoad == evaluator.realTrainLoad
        invariant i == 0 ==> bridge.wheels == old(bridge.wheels) && bridge.trainLoad == old(bridge.trainLoad)
                             && bridge.crossSection == old(bridge.crossSection)
      {
        ghost var before := bridge.wheels;
        var score := LoadCriterion(points[i]);
        if score.Err? {
          SearchStops(points, scores, i);
          return Err(score.error);
        }
        if i > 0 {
          ShiftShift(old(bridge.wheels), evaluator.realTrainPosition - old(bridge.wheels)[0], evaluator.realTrainPosition - before[0]);
        }
        assert scores[i] == score;
        SearchStep(points, scores, i, (bestParams, bestScore), score.value);
        if score.value > bestScore {
          bestScore := score.value;
          bestParams := points[i];
        }
        i := i + 1;
      }
      assert points[..i] == points && scores[..i] == scores;
      r := Ok((bestParams, bestScore));
    }

    /** optimize_cross_section over the given enumeration of the candidate
        grid: the search around the section's keywords, then the section
        of the bridge's class built from the best point. */
    method OptimizeCrossSection(points: seq<Params>) returns (r: Result<(Section, real)>)
      requires Valid() && Normal(bridge.wheels) == train
      modifies bridge`crossSection, bridge`wheels, bridge`trainLoad, bridge`loads
      ensures Valid()
      ensures r == old(Optimal(csType, Kwargs(bridge.crossSection), points, criterion))
      ensures r.Ok? ==> Normal(bridge.wheels) == train
      ensures r.Ok? && |points| > 0 ==> FromKwargs(csType, points[|points| - 1]) == Ok(bridge.crossSection)
      ensures old(GridResult(ParamRanges(Kwargs(bridge.crossSection)), points, criterion)).Ok? && |points| > 0 ==>
        MovedTo(old(bridge.wheels), evaluator.realTrainPosition, bridge.wheels) && bridge.trainLoad == evaluator.realTrainLoad
      ensures old(GridCheck(ParamRanges(Kwargs(bridge.crossSection)))).Err? || |points| == 0 ==>
        bridge.wheels == old(bridge.wheels) && bridge.trainLoad == old(bridge.trainLoad)
        && bridge.crossSection == old(bridge.crossSection)
    {
      var ranges := ParamRanges(Kwargs(bridge.crossSection));
      var found := GridSearchLoad(ranges, points);
      if found.Err? {
        return Err(found.error);
      }
      var best := FromKwargs(csType, found.value.0);
      if best.Err? {
        return Err(best.error);
      }
      r := Ok((best.value, found.value.1));
    }
  }
}
