/** Run extraction over a boolean mask: the maximal stretches of true entries,
    as index pairs (the older package) or scaled by a step dx (the current one). */
module Runs {
  import opened Common

  /** [a, b] is a maximal stretch of true entries of x (both ends inclusive). */
  predicate IsRun(x: seq<bool>, a: int, b: int)
  {
    0 <= a <= b < |x|
    && (forall i :: a <= i <= b ==> x[i])
    && (a == 0 || !x[a - 1])
    && (b == |x| - 1 || !x[b + 1])
  }

  /** runs lists every maximal run of x once, left to right, with a false
      entry between any two of them. */
  predicate Decomposition(x: seq<bool>, runs: seq<(int, int)>)
  {
    (forall k :: 0 <= k < |runs| ==> IsRun(x, runs[k].0, runs[k].1))
    && (forall j, k :: 0 <= j < k < |runs| ==> runs[j].1 + 1 < runs[k].0)
    && (forall i :: 0 <= i < |x| && x[i] ==> exists k :: 0 <= k < |runs| && runs[k].0 <= i <= runs[k].1)
  }

  /** Index i starts a run: true, and first or after a false entry. */
  predicate StartsAt(x: seq<bool>, i: int)
    requires 0 <= i < |x|
  {
    x[i] && (i == 0 || !x[i - 1])
  }

  /** Number of false-to-true transitions, a true first entry counting as one. */
  function Starts(x: seq<bool>): nat
  {
    if x == [] then 0
    else Starts(x[..|x| - 1]) + (if StartsAt(x, |x| - 1) then 1 else 0)
  }

  /** The pairs of runs scaled by dx. */
  function Scaled(runs: seq<(int, int)>, dx: real): (r: seq<(real, real)>)
    ensures |r| == |runs|
  {
    if runs == [] then []
    else Scaled(runs[..|runs| - 1], dx) + [ScaledPair(runs[|runs| - 1], dx)]
  }

  function ScaledPair(p: (int, int), dx: real): (real, real)
  {
    (Times(p.0 as real, dx), Times(p.1 as real, dx))
  }

  /** The loop state of both versions after the first i entries: closed runs
      in r, and the start of the run still open at i, if any. */
  predicate Scanned(x: seq<bool>, i: int, r: seq<(int, int)>, start: Option<int>)
  {
    0 <= i <= |x|
    && (forall k :: 0 <= k < |r| ==> IsRun(x, r[k].0, r[k].1) && r[k].1 + 1 < i)
    && (forall j, k :: 0 <= j < k < |r| ==> r[j].1 + 1 < r[k].0)
    && (match start
        case None => i == 0 || !x[i - 1]
        case Some(s) =>
          0 <= s < i && (s == 0 || !x[s - 1]) && (forall j :: s <= j < i ==> x[j])
          && (forall k :: 0 <= k < |r| ==> r[k].1 + 1 < s))
    && (forall j :: 0 <= j < i && x[j] ==>
          (exists k :: 0 <= k < |r| && r[k].0 <= j <= r[k].1) || (start.Some? && start.value <= j))
    && |r| + (if start.Some? then 1 else 0) == Starts(x[..i])
  }

  /** A true entry after a false one (or at the start) opens a run. */
  lemma ScanOpen(x: seq<bool>, i: int, r: seq<(int, int)>)
    requires 0 < i <= |x| && Scanned(x, i - 1, r, None) && x[i - 1]
    ensures Scanned(x, i, r, Some(i - 1))
  {
    assert x[..i][..i - 1] == x[..i - 1];
    assert StartsAt(x[..i], i - 1);
  }

  /** A false entry closes the open run at the entry before it. */
  lemma ScanClose(x: seq<bool>, i: int, r: seq<(int, int)>, s: int)
    requires 0 < i <= |x| && Scanned(x, i - 1, r, Some(s)) && !x[i - 1]
    ensures Scanned(x, i, r + [(s, i - 2)], None)
  {
    assert x[..i][..i - 1] == x[..i - 1];
    var r' := r + [(s, i - 2)];
    assert IsRun(x, s, i - 2);
    forall j | 0 <= j < i && x[j]
      ensures exists k :: 0 <= k < |r'| && r'[k].0 <= j <= r'[k].1
    {
      if exists k :: 0 <= k < |r| && r[k].0 <= j <= r[k].1 {
        var k :| 0 <= k < |r| && r[k].0 <= j <= r[k].1;
        assert r'[k] == r[k];
      } else {
        assert r'[|r|].0 <= j <= r'[|r|].1;
      }
    }
  }

  /** A true entry inside a run, or a false entry outside one, changes
      nothing but the position. */
  lemma ScanKeep(x: seq<bool>, i: int, r: seq<(int, int)>, start: Option<int>)
    requires 0 < i <= |x| && Scanned(x, i - 1, r, start) && x[i - 1] == start.Some?
    ensures Scanned(x, i, r, start)
  {
    assert x[..i][..i - 1] == x[..i - 1];
    if x[i - 1] {
      assert !StartsAt(x[..i], i - 1);
    }
  }

  /** A scan that ends outside a run has found every run. */
  lemma ScanEndClosed(x: seq<bool>, r: seq<(int, int)>)
    requires Scanned(x, |x|, r, None)
    ensures Decomposition(x, r) && |r| == Starts(x)
  {
    assert x[..|x|] == x;
  }

  /** A scan that ends inside a run has found every run once that run is
      closed at the last entry. */
  lemma ScanEndOpen(x: seq<bool>, r: seq<(int, int)>, s: int)
    requires Scanned(x, |x|, r, Some(s))
    ensures Decomposition(x, r + [(s, |x| - 1)]) && |r| + 1 == Starts(x)
  {
    assert x[..|x|] == x;
    var r' := r + [(s, |x| - 1)];
    assert IsRun(x, s, |x| - 1);
    forall j | 0 <= j < |x| && x[j]
      ensures exists k :: 0 <= k < |r'| && r'[k].0 <= j <= r'[k].1
    {
      if exists k :: 0 <= k < |r| && r[k].0 <= j <= r[k].1 {
        var k :| 0 <= k < |r| && r[k].0 <= j <= r[k].1;
        assert r'[k] == r[k];
      } else {
        assert r'[|r|].0 <= j <= r'[|r|].1;
      }
    }
  }

  /** One step of the scan at entry i: a true entry opens a run, a false
      entry closes the open run at the entry before it. */
  function Next(x: seq<bool>, i: nat, st: (seq<(int, int)>, Option<int>)): (seq<(int, int)>, Option<int>)
    requires i < |x|
  {
    if x[i] && st.1.None? then (st.0, Some(i))
    else if !x[i] && st.1.Some? then (st.0 + [(st.1.value, i - 1)], None)
    else st
  }

  /** The loop state of both versions after the first i entries, as a
      reference definition: the runs closed so far, and the start of the run
      still open, if any. */
  function Scan(x: seq<bool>, i: nat): (seq<(int, int)>, Option<int>)
    requires i <= |x|
  {
    if i == 0 then ([], None) else Next(x, i - 1, Scan(x, i - 1))
  }

  /** The runs of x: the scan of every entry, closing a run still open at the
      last one. */
  function RunsOf(x: seq<bool>): seq<(int, int)>
  {
    var (r, start) := Scan(x, |x|);
    if start.Some? then r + [(start.value, |x| - 1)] else r
  }

  /** One step of the scan keeps the loop state described by Scanned. */
  lemma ScanAdvance(x: seq<bool>, i: nat)
    requires 0 < i <= |x| && Scanned(x, i - 1, Scan(x, i - 1).0, Scan(x, i - 1).1)
    ensures Scanned(x, i, Scan(x, i).0, Scan(x, i).1)
  {
    var st := Scan(x, i - 1);
    assert Scan(x, i) == Next(x, i - 1, st);
    if x[i - 1] && st.1.None? {
      ScanOpen(x, i, st.0);
    } else if !x[i - 1] && st.1.Some? {
      ScanClose(x, i, st.0, st.1.value);
    } else {
      ScanKeep(x, i, st.0, st.1);
    }
  }

  /** The reference scan keeps the loop state described by Scanned. */
  lemma {:induction false} ScanInvariant(x: seq<bool>, i: nat)
    requires i <= |x|
    ensures Scanned(x, i, Scan(x, i).0, Scan(x, i).1)
  {
    if i > 0 {
      ScanInvariant(x, i - 1);
      ScanAdvance(x, i);
    }
  }

  /** RunsOf lists exactly the maximal runs of x, one per run start. */
  lemma RunsOfDecomposition(x: seq<bool>)
    ensures Decomposition(x, RunsOf(x)) && |RunsOf(x)| == Starts(x)
  {
    ScanInvariant(x, |x|);
    var (r, start) := Scan(x, |x|);
    if start.Some? {
      ScanEndOpen(x, r, start.value);
    } else {
      ScanEndClosed(x, r);
    }
  }

  /** The older package's intervals: index pairs of the maximal runs. */
  method IndexIntervals(x: seq<bool>) returns (r: seq<(int, int)>)
    ensures r == RunsOf(x)
  {
    r := [];
    var start: Option<int> := None;
    var i := 0;
    while i < |x|
      invariant 0 <= i <= |x| && (r, start) == Scan(x, i)
    {
      if x[i] && start.None? {
        start := Some(i);
      } else if !x[i] && start.Some? {
        r := r + [(start.value, i - 1)];
        start := None;
      }
      i := i + 1;
    }
    if start.Some? {
      r := r + [(start.value, |x| - 1)];
    }
  }

  lemma ScaledAppend(runs: seq<(int, int)>, p: (int, int), dx: real)
    ensures Scaled(runs + [p], dx) == Scaled(runs, dx) + [ScaledPair(p, dx)]
  {
    assert (runs + [p])[..|runs|] == runs;
  }

  /** The current package's intervals: the same runs, each end multiplied by dx. */
  method Intervals(x: seq<bool>, dx: real) returns (r: seq<(real, real)>)
    ensures r == Scaled(RunsOf(x), dx)
  {
    r := [];
    ghost var runs: seq<(int, int)> := [];
    var start: Option<int> := None;
    var i := 0;
    while i < |x|
      invariant 0 <= i <= |x| && (runs, start) == Scan(x, i)
      invariant r == Scaled(runs, dx)
    {
      if x[i] && start.None? {
        start := Some(i);
      } else if !x[i] && start.Some? {
        ScaledAppend(runs, (start.value, i - 1), dx);
        r := r + [ScaledPair((start.value, i - 1), dx)];
        runs := runs + [(start.value, i - 1)];
        start := None;
      }
      i := i + 1;
    }
    if start.Some? {
      ScaledAppend(runs, (start.value, |x| - 1), dx);
      r := r + [ScaledPair((start.value, |x| - 1), dx)];
    }
  }

  /** Every run start of the mask is the start of one of the runs. */
  lemma StartsCovered(x: seq<bool>, runs: seq<(int, int)>)
    requires Decomposition(x, runs)
    ensures forall a :: 0 <= a < |x| && StartsAt(x, a) ==> exists j :: 0 <= j < |runs| && runs[j].0 == a
  {
    forall a | 0 <= a < |x| && StartsAt(x, a)
      ensures exists j :: 0 <= j < |runs| && runs[j].0 == a
    {
      var j :| 0 <= j < |runs| && runs[j].0 <= a <= runs[j].1;
    }
  }

  lemma SameStartSameEnd(x: seq<bool>, a: int, b1: int, b2: int)
    requires IsRun(x, a, b1) && IsRun(x, a, b2)
    ensures b1 == b2
  {
  }

  lemma EqualPrefix(r1: seq<(int, int)>, r2: seq<(int, int)>, k: int)
    requires 0 <= k <= |r1| && k <= |r2| && r1[..k] == r2[..k]
    ensures forall i :: 0 <= i < k ==> r1[i] == r2[i]
  {
    forall i | 0 <= i < k ensures r1[i] == r2[i] {
      assert r1[i] == r1[..k][i];
      assert r2[i] == r2[..k][i];
    }
  }

  /** With equal prefixes, the k-th run of r1 cannot start before that of r2. */
  lemma NoEarlierStart(x: seq<bool>, r1: seq<(int, int)>, r2: seq<(int, int)>, k: int)
    requires Decomposition(x, r1) && Decomposition(x, r2)
    requires 0 <= k < |r1| && k < |r2| && r1[..k] == r2[..k]
    ensures r2[k].0 <= r1[k].0
  {
    StartsCovered(x, r2);
    assert StartsAt(x, r1[k].0);
    var j :| 0 <= j < |r2| && r2[j].0 == r1[k].0;
    EqualPrefix(r1, r2, k);
    assert k <= j;
  }

  lemma {:induction false} DecompositionPrefix(x: seq<bool>, r1: seq<(int, int)>, r2: seq<(int, int)>, k: nat)
    requires Decomposition(x, r1) && Decomposition(x, r2)
    requires k <= |r1| && k <= |r2|
    ensures r1[..k] == r2[..k]
  {
    if k > 0 {
      DecompositionPrefix(x, r1, r2, k - 1);
      NoEarlierStart(x, r1, r2, k - 1);
      NoEarlierStart(x, r2, r1, k - 1);
      SameStartSameEnd(x, r1[k - 1].0, r1[k - 1].1, r2[k - 1].1);
      assert r1[..k] == r1[..k - 1] + [r1[k - 1]];
      assert r2[..k] == r2[..k - 1] + [r2[k - 1]];
    }
  }

  /** The start of the k-th run, or -1 past the end. */
  function StartOf(runs: seq<(int, int)>, k: int): int
  {
    if 0 <= k < |runs| then runs[k].0 else -1
  }

  /** a is where one of the runs starts. */
  predicate StartsSomeRun(runs: seq<(int, int)>, a: int)
  {
    exists j :: 0 <= j < |runs| && runs[j].0 == a
  }

  /** Every run of r2 starts where some run of r1 starts. */
  lemma StartsMatch(x: seq<bool>, r1: seq<(int, int)>, r2: seq<(int, int)>)
    requires Decomposition(x, r1) && Decomposition(x, r2)
    ensures forall k :: 0 <= k < |r2| ==> StartsSomeRun(r1, StartOf(r2, k))
  {
    StartsCovered(x, r1);
    forall k | 0 <= k < |r2|
      ensures StartsSomeRun(r1, StartOf(r2, k))
    {
      assert StartsAt(x, r2[k].0);
    }
  }

  /** A decomposition has no run beyond those of another one it extends. */
  lemma NoExtraRun(x: seq<bool>, r1: seq<(int, int)>, r2: seq<(int, int)>)
    requires Decomposition(x, r1) && Decomposition(x, r2)
    requires |r1| <= |r2| && r1 == r2[..|r1|]
    ensures |r1| == |r2|
  {
    var n := |r1|;
    StartsMatch(x, r1, r2);
    EqualPrefix(r1, r2, n);
    ghost var a := StartOf(r2, n);
  }

  /** The runs of a mask are unique: any two decompositions coincide. */
  lemma DecompositionUnique(x: seq<bool>, r1: seq<(int, int)>, r2: seq<(int, int)>)
    requires Decomposition(x, r1) && Decomposition(x, r2)
    ensures r1 == r2
  {
    if |r1| <= |r2| {
      DecompositionPrefix(x, r1, r2, |r1|);
      assert r1[..|r1|] == r1;
      NoExtraRun(x, r1, r2);
    } else {
      DecompositionPrefix(x, r2, r1, |r2|);
      assert r2[..|r2|] == r2;
      NoExtraRun(x, r2, r1);
    }
    assert r1 == r1[..|r1|] && r2 == r2[..|r2|];
  }

  /** A mask without a true entry has no runs. */
  lemma NoTrueNoRuns(x: seq<bool>, runs: seq<(int, int)>)
    requires Decomposition(x, runs) && forall i :: 0 <= i < |x| ==> !x[i]
    ensures runs == []
  {
    assert forall k :: 0 <= k < |runs| ==> StartOf(runs, k) == runs[k].0 && x[runs[k].0];
    ghost var first := StartOf(runs, 0);
  }

  /** The index pairs as reals. */
  function AsReals(runs: seq<(int, int)>): (r: seq<(real, real)>)
    ensures |r| == |runs|
  {
    if runs == [] then []
    else AsReals(runs[..|runs| - 1]) + [(runs[|runs| - 1].0 as real, runs[|runs| - 1].1 as real)]
  }

  lemma {:induction false} ScaledByOne(runs: seq<(int, int)>)
    ensures Scaled(runs, 1.0) == AsReals(runs)
  {
    if runs != [] {
      ScaledByOne(runs[..|runs| - 1]);
    }
  }

  /** With the default step, the current package's intervals are the older
      package's index pairs. */
  lemma IntervalsAgreeAtUnitStep(x: seq<bool>, legacy: seq<(int, int)>, runs: seq<(int, int)>)
    requires Decomposition(x, legacy) && Decomposition(x, runs)
    ensures Scaled(runs, 1.0) == AsReals(legacy)
  {
    DecompositionUnique(x, legacy, runs);
    ScaledByOne(runs);
  }
}
