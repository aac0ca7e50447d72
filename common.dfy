/** Shared vocabulary: the exceptions the modelled code raises, and folds over
    sequences of reals (Python's sum, max and min). */
module Common {

  /** The Python exceptions the modelled operations can raise. */
  datatype Error =
    | ValueError          // a range check, max()/min() of an empty sequence, int(nan)
    | ZeroDivisionError   // a division by zero
    | NotImplementedError // an operation a shape does not support
    | TypeError           // a call with keyword arguments the callee does not accept
    | KeyError            // dict.pop of a missing key
    | OverflowError       // int() of an infinity
    | IndexError          // the first element of an empty array

  datatype Option<+T> = None | Some(value: T)

  /** The outcome of an operation that may raise. */
  datatype Result<+T> = Ok(value: T) | Err(error: Error)

  /** Python's sum() of a sequence of reals, peeled from the back so that a
      loop that appends sees one more term per iteration. */
  function Sum(s: seq<real>): real
  {
    if s == [] then 0.0 else Sum(s[..|s| - 1]) + s[|s| - 1]
  }

  /** Python's max() of a non-empty sequence. */
  function Max(s: seq<real>): (m: real)
    requires |s| > 0
    ensures forall i :: 0 <= i < |s| ==> s[i] <= m
    ensures exists i :: 0 <= i < |s| && s[i] == m
  {
    if |s| == 1 then s[0]
    else
      var m' := Max(s[..|s| - 1]);
      assert forall i :: 0 <= i < |s| - 1 ==> s[..|s| - 1][i] == s[i];
      if s[|s| - 1] > m' then s[|s| - 1] else m'
  }

  /** Python's min() of a non-empty sequence. */
  function Min(s: seq<real>): (m: real)
    requires |s| > 0
    ensures forall i :: 0 <= i < |s| ==> m <= s[i]
    ensures exists i :: 0 <= i < |s| && s[i] == m
  {
    if |s| == 1 then s[0]
    else
      var m' := Min(s[..|s| - 1]);
      assert forall i :: 0 <= i < |s| - 1 ==> s[..|s| - 1][i] == s[i];
      if s[|s| - 1] < m' then s[|s| - 1] else m'
  }

  function Abs(x: real): real { if x < 0.0 then -x else x }

  function Max2(a: real, b: real): real { if a >= b then a else b }

  /** Every element multiplied by c (numpy's array * scalar). */
  function Scale(s: seq<real>, c: real): (r: seq<real>)
    ensures |r| == |s| && forall i :: 0 <= i < |s| ==> r[i] == s[i] * c
  {
    seq(|s|, i requires 0 <= i < |s| => s[i] * c)
  }

  /** Every element increased by c (numpy's array += scalar). */
  function Shift(s: seq<real>, c: real): (r: seq<real>)
    ensures |r| == |s| && forall i :: 0 <= i < |s| ==> r[i] == s[i] + c
  {
    seq(|s|, i requires 0 <= i < |s| => s[i] + c)
  }

  /** (a * b).sum() for two arrays of one length. */
  function Dot(a: seq<real>, b: seq<real>): real
    requires |a| == |b|
  {
    if a == [] then 0.0 else Dot(a[..|a| - 1], b[..|b| - 1]) + a[|a| - 1] * b[|b| - 1]
  }

  lemma {:induction false} SumScale(s: seq<real>, c: real)
    ensures Sum(Scale(s, c)) == Sum(s) * c
  {
    if s != [] {
      ScalePrefix(s, c);
      SumScale(s[..|s| - 1], c);
    }
  }

  lemma {:induction false} DotScale(a: seq<real>, b: seq<real>, c: real)
    requires |a| == |b|
    ensures Dot(a, Scale(b, c)) == Dot(a, b) * c
  {
    if a != [] {
      ScalePrefix(b, c);
      DotScale(a[..|a| - 1], b[..|b| - 1], c);
    }
  }

  lemma ScalePrefix(s: seq<real>, c: real)
    requires s != []
    ensures Scale(s, c)[..|s| - 1] == Scale(s[..|s| - 1], c)
  {
    var a, b := Scale(s, c)[..|s| - 1], Scale(s[..|s| - 1], c);
    assert |a| == |b|;
    forall i | 0 <= i < |a| ensures a[i] == b[i] { }
  }

  lemma MulEq(a: real, b: real, c: real, d: real)
    requires a == b && c == d
    ensures a * c == b * d
  {
  }

  lemma MulNonneg(a: real, b: real)
    requires a >= 0.0 && b >= 0.0
    ensures a * b >= 0.0
  {
  }

  lemma DivExact(m: real, a: real, x: real)
    requires a != 0.0 && m == a * x
    ensures m / a == x
  {
  }

  lemma MulMono(a: real, b: real, c: real)
    requires a <= b && c > 0.0
    ensures a * c <= b * c
  {
  }

  lemma SumAppend(s: seq<real>, x: real)
    ensures Sum(s + [x]) == Sum(s) + x
  {
    assert (s + [x])[..|s|] == s;
  }

  lemma ShiftShift(s: seq<real>, a: real, b: real)
    ensures Shift(Shift(s, a), b) == Shift(s, a + b)
  {
  }

  lemma MulMonoStrict(a: real, b: real, c: real)
    requires c > 0.0
    ensures a < b <==> a * c < b * c
  {
    if a < b { assert (b - a) * c > 0.0; }
    if a * c < b * c { assert (b - a) * c > 0.0; }
  }

  /** The product a * b as a term of its own: lemmas that relate the maximum
      of a scaled sequence to a scaled maximum state their intermediate
      steps with it, so that the solver matches products by name. */
  function Times(a: real, b: real): real { a * b }

  /** The quotient a / b as a term of its own, for the same reason. */
  function Over(a: real, b: real): real
    requires b != 0.0
  {
    a / b
  }

  /** s attains its largest value m at index k. */
  predicate IsMaxAt(s: seq<real>, m: real, k: int)
  {
    0 <= k < |s| && s[k] == m && forall i :: 0 <= i < |s| ==> s[i] <= m
  }

  /** s attains its smallest value m at index k. */
  predicate IsMinAt(s: seq<real>, m: real, k: int)
  {
    0 <= k < |s| && s[k] == m && forall i :: 0 <= i < |s| ==> m <= s[i]
  }

  /** An attained upper bound is the maximum. */
  lemma MaxUnique(s: seq<real>, m: real, k: int)
    requires IsMaxAt(s, m, k)
    ensures Max(s) == m
  {
  }

  /** An attained lower bound is the minimum. */
  lemma MinUnique(s: seq<real>, m: real, k: int)
    requires IsMinAt(s, m, k)
    ensures Min(s) == m
  {
  }

  lemma ScaleMaxAt(s: seq<real>, c: real, m: real, k: int)
    requires c > 0.0 && IsMaxAt(s, m, k)
    ensures IsMaxAt(Scale(s, c), Times(m, c), k)
  {
    var t := Scale(s, c);
    forall i | 0 <= i < |s| ensures t[i] <= m * c { MulMono(s[i], m, c); }
  }

  lemma ScaleMinAt(s: seq<real>, c: real, m: real, k: int)
    requires c > 0.0 && IsMinAt(s, m, k)
    ensures IsMinAt(Scale(s, c), Times(m, c), k)
  {
    var t := Scale(s, c);
    forall i | 0 <= i < |s| ensures m * c <= t[i] { MulMono(m, s[i], c); }
  }

  /** Scaling by a positive factor commutes with max. */
  lemma MaxScale(s: seq<real>, c: real)
    requires |s| > 0 && c > 0.0
    ensures Max(Scale(s, c)) == Max(s) * c
  {
    MaxScaleTimes(s, c);
  }

  lemma MaxScaleTimes(s: seq<real>, c: real)
    requires |s| > 0 && c > 0.0
    ensures Max(Scale(s, c)) == Times(Max(s), c)
  {
    var k :| 0 <= k < |s| && s[k] == Max(s);
    ScaleMaxAt(s, c, Max(s), k);
    MaxUnique(Scale(s, c), Times(Max(s), c), k);
  }

  /** Scaling by a positive factor commutes with min. */
  lemma MinScale(s: seq<real>, c: real)
    requires |s| > 0 && c > 0.0
    ensures Min(Scale(s, c)) == Min(s) * c
  {
    MinScaleTimes(s, c);
  }

  lemma MinScaleTimes(s: seq<real>, c: real)
    requires |s| > 0 && c > 0.0
    ensures Min(Scale(s, c)) == Times(Min(s), c)
  {
    var k :| 0 <= k < |s| && s[k] == Min(s);
    ScaleMinAt(s, c, Min(s), k);
    MinUnique(Scale(s, c), Times(Min(s), c), k);
  }
}
