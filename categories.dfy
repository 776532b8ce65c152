/** Category vocabularies as scikit-learn keeps them.

    `LabelEncoder` and `OneHotEncoder` both store the sorted unique values seen
    during fit (`classes_`, `categories_`) and encode a value by its position
    in that sorted list. The position of `x` in the sorted list of a
    vocabulary is the number of vocabulary entries that sort before it, which
    is what `Rank` computes without building the list. Strings compare as
    Python compares them: by code point, a proper prefix first. */
module Categories {
  import opened Errors

  /** Python's `a < b` on `str`. */
  predicate Less(a: string, b: string)
    decreases |a|
  {
    if |a| == 0 then |b| > 0
    else if |b| == 0 then false
    else if a[0] != b[0] then a[0] < b[0]
    else Less(a[1..], b[1..])
  }

  lemma {:induction false} LessIrreflexive(a: string)
    ensures !Less(a, a)
    decreases |a|
  {
    if |a| > 0 {
      LessIrreflexive(a[1..]);
    }
  }

  lemma {:induction false} LessTransitive(a: string, b: string, c: string)
    requires Less(a, b) && Less(b, c)
    ensures Less(a, c)
    decreases |a|
  {
    if |a| > 0 && a[0] == b[0] && b[0] == c[0] {
      LessTransitive(a[1..], b[1..], c[1..]);
    }
  }

  lemma {:induction false} LessTotal(a: string, b: string)
    requires a != b
    ensures Less(a, b) || Less(b, a)
    decreases |a|
  {
    if |a| > 0 && |b| > 0 && a[0] == b[0] {
      assert a == [a[0]] + a[1..] && b == [b[0]] + b[1..];
      LessTotal(a[1..], b[1..]);
    }
  }

  lemma {:induction false} LessAsymmetric(a: string, b: string)
    requires Less(a, b)
    ensures !Less(b, a)
  {
    if Less(b, a) {
      LessTransitive(a, b, a);
      LessIrreflexive(a);
    }
  }

  /** The entries of `vocab` that sort strictly before `x`. */
  function Below(vocab: set<string>, x: string): set<string> {
    set y | y in vocab && Less(y, x)
  }

  /** Position of `x` in the sorted list of `vocab` (`np.searchsorted`). */
  function Rank(vocab: set<string>, x: string): nat {
    |Below(vocab, x)|
  }

  lemma CardinalityOfStrictSubset(a: set<string>, b: set<string>)
    requires a < b
    ensures |a| < |b|
  {
    if b - a == {} {
      assert false;
    }
    var z :| z in b - a;
    var rest := b - {z};
    assert |rest| == |b| - 1;
    assert rest == a + (rest - a) && a !! (rest - a);
    assert |rest| == |a| + |rest - a|;
  }

  /** A known value has a position inside the vocabulary. */
  lemma RankBelowSize(vocab: set<string>, x: string)
    requires x in vocab
    ensures Rank(vocab, x) < |vocab|
  {
    LessIrreflexive(x);
    CardinalityOfStrictSubset(Below(vocab, x), vocab);
  }

  /** Positions follow the string order. */
  lemma RankStrictlyMonotone(vocab: set<string>, x: string, y: string)
    requires x in vocab && Less(x, y)
    ensures Rank(vocab, x) < Rank(vocab, y)
  {
    forall z | z in Below(vocab, x) ensures z in Below(vocab, y) {
      LessTransitive(z, x, y);
    }
    LessIrreflexive(x);
    assert x in Below(vocab, y) && x !in Below(vocab, x);
    CardinalityOfStrictSubset(Below(vocab, x), Below(vocab, y));
  }

  /** Distinct known values get distinct positions. */
  lemma RankInjective(vocab: set<string>, x: string, y: string)
    requires x in vocab && y in vocab && x != y
    ensures Rank(vocab, x) != Rank(vocab, y)
  {
    LessTotal(x, y);
    if Less(x, y) {
      RankStrictlyMonotone(vocab, x, y);
    } else {
      RankStrictlyMonotone(vocab, y, x);
    }
  }

  /** The one-hot block of `x`: one indicator per vocabulary entry, in sorted
      order. With `handle_unknown='ignore'` a value outside the vocabulary
      gives a block of zeros instead of an error. */
  function OneHot(vocab: set<string>, x: string): (block: seq<real>)
    ensures |block| == |vocab|
    ensures x !in vocab ==> forall k :: 0 <= k < |block| ==> block[k] == 0.0
    ensures x in vocab ==> Rank(vocab, x) < |block| && block[Rank(vocab, x)] == 1.0
    ensures x in vocab ==> forall k :: 0 <= k < |block| && k != Rank(vocab, x) ==> block[k] == 0.0
  {
    assert x in vocab ==> Rank(vocab, x) < |vocab| by {
      if x in vocab { RankBelowSize(vocab, x); }
    }
    seq(|vocab|, k => if x in vocab && k == Rank(vocab, x) then 1.0 else 0.0)
  }

  /** One-hot encoding loses nothing on the vocabulary: two known values with
      the same block are the same value, and no known value encodes like an
      unknown one. */
  lemma OneHotDistinguishes(vocab: set<string>, x: string, y: string)
    requires x in vocab
    requires OneHot(vocab, x) == OneHot(vocab, y)
    ensures y == x
  {
    var k := Rank(vocab, x);
    assert OneHot(vocab, y)[k] == 1.0;
    if y !in vocab {
      assert false;
    } else if y != x {
      RankInjective(vocab, x, y);
    }
  }

  /** Number of occurrences of `v` in `values`. */
  function Count(values: seq<string>, v: string): nat {
    multiset(values)[v]
  }

  /** `a` is preferred to `b` as the most frequent value: it occurs more
      often, or as often and sorts first. */
  predicate Preferred(values: seq<string>, a: string, b: string) {
    Count(values, a) > Count(values, b) || (Count(values, a) == Count(values, b) && Less(a, b))
  }

  /** What `SimpleImputer(strategy='most_frequent')` picks for a column of
      strings: a value with the highest count, the smallest such value on a
      tie. */
  ghost predicate IsMostFrequent(values: seq<string>, m: string) {
    m in values && forall v :: v in values && v != m ==> Preferred(values, m, v)
  }

  /** The preferred entry of `candidates`. */
  function BestOf(candidates: seq<string>, values: seq<string>): (m: string)
    requires |candidates| > 0
    ensures m in candidates
    ensures forall v :: v in candidates && v != m ==> Preferred(values, m, v)
    decreases |candidates|
  {
    if |candidates| == 1 then candidates[0]
    else
      var rest := BestOf(candidates[1..], values);
      var first := candidates[0];
      if Preferred(values, first, rest) then
        PreferredTransitiveFrom(values, first, rest, candidates[1..]);
        first
      else
        PreferredTotal(values, first, rest);
        rest
  }

  lemma PreferredTransitiveFrom(values: seq<string>, a: string, b: string, others: seq<string>)
    requires Preferred(values, a, b)
    requires forall v :: v in others && v != b ==> Preferred(values, b, v)
    ensures forall v :: v in others && v != a ==> Preferred(values, a, v)
  {
    forall v | v in others && v != a
      ensures Preferred(values, a, v)
    {
      if v != b && Count(values, a) == Count(values, b) && Count(values, b) == Count(values, v) {
        LessTransitive(a, b, v);
      }
    }
  }

  lemma PreferredTotal(values: seq<string>, a: string, b: string)
    requires !Preferred(values, a, b)
    ensures a == b || Preferred(values, b, a)
  {
    if a != b {
      LessTotal(a, b);
    }
  }

  /** The imputation value of a column: None when the column has no value. */
  function MostFrequent(values: seq<string>): (r: Option<string>)
    ensures r.None? <==> |values| == 0
    ensures r.Some? ==> IsMostFrequent(values, r.value)
  {
    if |values| == 0 then None else Some(BestOf(values, values))
  }

  /** There is only one most frequent value, so the imputer's choice is
      determined by the training column. */
  lemma MostFrequentUnique(values: seq<string>, m1: string, m2: string)
    requires IsMostFrequent(values, m1) && IsMostFrequent(values, m2)
    ensures m1 == m2
  {
    if m1 != m2 {
      assert Preferred(values, m1, m2) && Preferred(values, m2, m1);
      if Count(values, m1) == Count(values, m2) {
        LessAsymmetric(m1, m2);
      }
    }
  }
}
