/**
 * Per-frame series values and the notions the signal pipeline is built on:
 * float arithmetic with NaN, the order `List<float>.Sort` uses, sorting, and
 * maximal runs of non-NaN values ("actions").
 */
module Series {

  /** One per-frame value. `NaN` is float.NaN, the pipeline's "no value". */
  datatype Sample = NaN | Num(value: real)

  // ---------------------------------------------------------------------------
  // Float arithmetic as the pipeline uses it: a NaN operand gives NaN.

  function Plus(a: Sample, b: Sample): Sample
  {
    if a.Num? && b.Num? then Num(a.value + b.value) else NaN
  }

  function Minus(a: Sample, b: Sample): Sample
  {
    if a.Num? && b.Num? then Num(a.value - b.value) else NaN
  }

  function Square(a: Sample): Sample
  {
    if a.Num? then Num(a.value * a.value) else NaN
  }

  /**
   * Float division. 0/0 is NaN; a non-zero value divided by zero would be an
   * infinity, which no caller produces, so the precondition excludes it.
   */
  function Divide(a: Sample, d: real): Sample
    requires d == 0.0 ==> a.NaN? || a.value == 0.0
  {
    if a.NaN? || d == 0.0 then NaN else Num(a.value / d)
  }

  /** Math.Sqrt: NaN for NaN and for negative arguments. */
  function Root(a: Sample, sqrt: real -> real): Sample
  {
    if a.NaN? || a.value < 0.0 then NaN else Num(sqrt(a.value))
  }

  /** `x > t` on floats: false when x is NaN. */
  predicate Above(x: Sample, t: real)
  {
    x.Num? && x.value > t
  }

  function Repeat(x: Sample, count: nat): (r: seq<Sample>)
    ensures |r| == count
    ensures forall j | 0 <= j < count :: r[j] == x
  {
    seq(count, _ => x)
  }

  predicate AllNum(w: seq<Sample>)
  {
    forall j | 0 <= j < |w| :: w[j].Num?
  }

  /** Sum of a NaN-free window, accumulated from the left. */
  function Total(w: seq<Sample>): real
    requires AllNum(w)
  {
    if w == [] then 0.0 else Total(w[..|w| - 1]) + w[|w| - 1].value
  }

  /** `Enumerable.Sum` over floats: NaN as soon as one value is NaN. */
  function SumOf(w: seq<Sample>): Sample
  {
    if AllNum(w) then Num(Total(w)) else NaN
  }

  /** `Enumerable.Average` of a non-empty NaN-free window. */
  function Mean(w: seq<Sample>): real
    requires AllNum(w) && |w| > 0
  {
    Total(w) / (|w| as real)
  }

  /** The sum of squared deviations from `m`, accumulated from the left. */
  function SquaredDeviations(w: seq<Sample>, m: real): real
    requires AllNum(w)
  {
    if w == [] then 0.0
    else SquaredDeviations(w[..|w| - 1], m) + (w[|w| - 1].value - m) * (w[|w| - 1].value - m)
  }

  lemma {:induction false} TotalOfOnes(w: seq<Sample>)
    requires forall j | 0 <= j < |w| :: w[j] == Num(1.0)
    ensures AllNum(w) && Total(w) == |w| as real
  {
    if w != [] {
      TotalOfOnes(w[..|w| - 1]);
    }
  }

  lemma {:induction false} MeanOfOnes(w: seq<Sample>)
    requires |w| > 0 && forall j | 0 <= j < |w| :: w[j] == Num(1.0)
    ensures AllNum(w) && Mean(w) == 1.0
  {
    TotalOfOnes(w);
    var n := |w| as real;
    assert Mean(w) == n / n;
  }

  // ---------------------------------------------------------------------------
  // The order of List<float>.Sort: NaN compares below every number.

  predicate SampleLe(a: Sample, b: Sample)
  {
    a.NaN? || (b.Num? && a.value <= b.value)
  }

  predicate Sorted(s: seq<Sample>)
  {
    forall i, j | 0 <= i < j < |s| :: SampleLe(s[i], s[j])
  }

  lemma {:induction false} SampleLeTotal(a: Sample, b: Sample)
    ensures SampleLe(a, b) || SampleLe(b, a)
    ensures SampleLe(a, b) && SampleLe(b, a) ==> a == b
  {
  }

  lemma {:induction false} SampleLeTransitive(a: Sample, b: Sample, c: Sample)
    requires SampleLe(a, b) && SampleLe(b, c)
    ensures SampleLe(a, c)
  {
  }

  /** Prepending an element below every element keeps a sequence sorted. */
  lemma {:induction false} SortedCons(h: Sample, rest: seq<Sample>)
    requires Sorted(rest) && forall k | 0 <= k < |rest| :: SampleLe(h, rest[k])
    ensures Sorted([h] + rest)
  {
    var r := [h] + rest;
    forall i, j | 0 <= i < j < |r| ensures SampleLe(r[i], r[j]) {
      assert r[j] == rest[j - 1];
      if i > 0 {
        assert r[i] == rest[i - 1];
      }
    }
  }

  /** When `x` goes after the head, the head stays below everything the tail becomes. */
  lemma {:induction false} HeadBelowInserted(x: Sample, s: seq<Sample>, rest: seq<Sample>)
    requires Sorted(s) && |s| > 0 && !SampleLe(x, s[0])
    requires multiset(rest) == multiset(s[1..]) + multiset{x}
    ensures forall k | 0 <= k < |rest| :: SampleLe(s[0], rest[k])
  {
    forall k | 0 <= k < |rest| ensures SampleLe(s[0], rest[k]) {
      assert rest[k] in multiset(rest);
      if rest[k] != x {
        assert rest[k] in multiset(s[1..]);
        var m :| 0 <= m < |s[1..]| && s[1..][m] == rest[k];
        assert s[m + 1] == rest[k];
      } else {
        SampleLeTotal(x, s[0]);
      }
    }
  }

  function Insert(x: Sample, s: seq<Sample>): (r: seq<Sample>)
    requires Sorted(s)
    ensures Sorted(r)
    ensures multiset(r) == multiset(s) + multiset{x}
    ensures |r| == |s| + 1
  {
    if s == [] then [x]
    else if SampleLe(x, s[0]) then
      SortedCons(x, s);
      [x] + s
    else
      var rest := Insert(x, s[1..]);
      assert s == [s[0]] + s[1..];
      HeadBelowInserted(x, s, rest);
      SortedCons(s[0], rest);
      [s[0]] + rest
  }

  /** `List<float>.Sort()`: an ascending permutation, NaNs first. */
  function SortSamples(s: seq<Sample>): (r: seq<Sample>)
    ensures Sorted(r)
    ensures multiset(r) == multiset(s)
    ensures |r| == |s|
  {
    if s == [] then []
    else
      assert s == [s[0]] + s[1..];
      Insert(s[0], SortSamples(s[1..]))
  }

  /** The head of an ascending sequence is below each of its elements. */
  lemma {:induction false} SortedHeadIsLeast(a: seq<Sample>, x: Sample)
    requires Sorted(a) && x in multiset(a)
    ensures SampleLe(a[0], x)
  {
    var i :| 0 <= i < |a| && a[i] == x;
    if i > 0 {
      assert SampleLe(a[0], a[i]);
    }
  }

  lemma {:induction false} MultisetOfTail(a: seq<Sample>)
    requires a != []
    ensures multiset(a[1..]) == multiset(a) - multiset{a[0]}
  {
    assert a == [a[0]] + a[1..];
    assert multiset(a) == multiset{a[0]} + multiset(a[1..]);
  }

  /** Two ascending sequences with the same elements are equal. */
  lemma {:induction false} SortedUnique(a: seq<Sample>, b: seq<Sample>)
    requires Sorted(a) && Sorted(b)
    requires multiset(a) == multiset(b)
    ensures a == b
  {
    assert |b| == |a| by {
      assert |multiset(a)| == |a| && |multiset(b)| == |b|;
    }
    if a != [] {
      assert a[0] in multiset(a) && b[0] in multiset(b);
      SortedHeadIsLeast(a, b[0]);
      SortedHeadIsLeast(b, a[0]);
      SampleLeTotal(a[0], b[0]);
      assert a[0] == b[0];
      MultisetOfTail(a);
      MultisetOfTail(b);
      SortedUnique(a[1..], b[1..]);
    }
  }

  /** Sorting depends only on the multiset of the values sorted. */
  lemma {:induction false} SortDependsOnMultiset(a: seq<Sample>, b: seq<Sample>)
    requires multiset(a) == multiset(b)
    ensures SortSamples(a) == SortSamples(b)
  {
    SortedUnique(SortSamples(a), SortSamples(b));
  }

  /** An ascending arrangement of the values of `b` is what sorting `b` yields. */
  lemma {:induction false} SortingYields(a: seq<Sample>, b: seq<Sample>)
    requires Sorted(a) && multiset(a) == multiset(b)
    ensures SortSamples(b) == a
  {
    SortedUnique(a, SortSamples(b));
  }

  /** In an ascending sequence the NaNs form the prefix; its length is their count. */
  lemma {:induction false} SortedNaNPrefix(s: seq<Sample>, j: nat)
    requires Sorted(s) && j < |s|
    ensures s[j].NaN? <==> j < multiset(s)[NaN]
  {
    if s[0].NaN? {
      assert s == [s[0]] + s[1..];
      assert multiset(s)[NaN] == multiset(s[1..])[NaN] + 1;
      if j > 0 {
        SortedNaNPrefix(s[1..], j - 1);
      }
    } else {
      assert forall k | 0 <= k < |s| :: s[k].Num? by {
        forall k | 0 <= k < |s| ensures s[k].Num? {
          if k > 0 {
            assert SampleLe(s[0], s[k]);
          }
        }
      }
      assert NaN !in multiset(s);
    }
  }

  // ---------------------------------------------------------------------------
  // Runs: a maximal stretch of consecutive non-NaN values.

  /** The number of consecutive non-NaN values starting at `k`. */
  function RunLength(xs: seq<Sample>, k: nat): (m: nat)
    requires k <= |xs|
    ensures k + m <= |xs|
    ensures forall j | k <= j < k + m :: xs[j].Num?
    ensures k + m == |xs| || xs[k + m].NaN?
    decreases |xs| - k
  {
    if k == |xs| || xs[k].NaN? then 0 else 1 + RunLength(xs, k + 1)
  }

  /** The first index of the run holding position `i` (and `i` itself when it is NaN). */
  function RunStart(xs: seq<Sample>, i: nat): (s: nat)
    requires i < |xs|
    ensures s <= i
    ensures xs[i].NaN? ==> s == i
    ensures xs[i].Num? ==> (s == 0 || xs[s - 1].NaN?) && forall j | s <= j <= i :: xs[j].Num?
  {
    if xs[i].NaN? || i == 0 || xs[i - 1].NaN? then i else RunStart(xs, i - 1)
  }

  /** Length of the maximal run holding the non-NaN position `i`. */
  function RunAround(xs: seq<Sample>, i: nat): nat
    requires i < |xs|
  {
    RunLength(xs, RunStart(xs, i))
  }

  /** `[s, e)` is a maximal run of `xs`. */
  predicate MaximalRun(xs: seq<Sample>, s: nat, e: nat)
  {
    s < e <= |xs|
    && (forall j | s <= j < e :: xs[j].Num?)
    && (s == 0 || xs[s - 1].NaN?)
    && (e == |xs| || xs[e].NaN?)
  }

  lemma {:induction false} RunLengthReaches(xs: seq<Sample>, k: nat, e: nat)
    requires k <= e <= |xs|
    requires forall j | k <= j < e :: xs[j].Num?
    ensures k + RunLength(xs, k) >= e
    ensures e == |xs| || xs[e].NaN? ==> k + RunLength(xs, k) == e
    decreases e - k
  {
    if k < e {
      RunLengthReaches(xs, k + 1, e);
    }
  }

  lemma {:induction false} RunStartReaches(xs: seq<Sample>, s: nat, i: nat)
    requires s <= i < |xs|
    requires forall j | s <= j <= i :: xs[j].Num?
    ensures RunStart(xs, i) <= s
    ensures s == 0 || xs[s - 1].NaN? ==> RunStart(xs, i) == s
    decreases i - s
  {
    if s < i {
      RunStartReaches(xs, s, i - 1);
    }
  }

  /** Every position of a maximal run `[s, e)` has run start `s` and run length `e - s`. */
  lemma {:induction false} RunOfMaximal(xs: seq<Sample>, s: nat, e: nat, i: nat)
    requires MaximalRun(xs, s, e) && s <= i < e
    ensures RunStart(xs, i) == s
    ensures RunLength(xs, s) == e - s
    ensures RunAround(xs, i) == e - s
  {
    RunStartReaches(xs, s, i);
    RunLengthReaches(xs, s, e);
  }

  /** The run starting at a run start `s` is maximal and reaches past every number from `s` to `i`. */
  lemma {:induction false} RunFromStartIsMaximal(xs: seq<Sample>, s: nat, i: nat)
    requires s <= i < |xs|
    requires s == 0 || xs[s - 1].NaN?
    requires forall j | s <= j <= i :: xs[j].Num?
    ensures i < s + RunLength(xs, s)
    ensures MaximalRun(xs, s, s + RunLength(xs, s))
  {
    RunLengthReaches(xs, s, i + 1);
  }

  /** The run holding a non-NaN position is maximal. */
  lemma {:induction false} RunAroundIsMaximal(xs: seq<Sample>, i: nat)
    requires i < |xs| && xs[i].Num?
    ensures MaximalRun(xs, RunStart(xs, i), RunStart(xs, i) + RunAround(xs, i))
    ensures RunStart(xs, i) <= i < RunStart(xs, i) + RunAround(xs, i)
  {
    var s := RunStart(xs, i);
    assert s == 0 || xs[s - 1].NaN?;
    assert forall j | s <= j <= i :: xs[j].Num?;
    RunFromStartIsMaximal(xs, s, i);
    assert RunAround(xs, i) == RunLength(xs, s);
  }

  /**
   * When every non-NaN position of `xs` is non-NaN in `ys`, each run of `xs`
   * lies inside the run of `ys` around the same position: runs only widen.
   */
  lemma {:induction false} RunsOnlyWiden(xs: seq<Sample>, ys: seq<Sample>, i: nat)
    requires |xs| == |ys| && i < |xs| && xs[i].Num?
    requires forall j | 0 <= j < |xs| :: xs[j].Num? ==> ys[j].Num?
    ensures RunStart(ys, i) <= RunStart(xs, i)
    ensures RunStart(xs, i) + RunAround(xs, i) <= RunStart(ys, i) + RunAround(ys, i)
  {
    var s := RunStart(xs, i);
    var e := s + RunAround(xs, i);
    RunAroundIsMaximal(xs, i);
    RunStartReaches(ys, s, i);
    var t := RunStart(ys, i);
    RunLengthReaches(ys, t, e);
  }
}
