/**
 * The decision logic of core/matcher.py: pairing detector output into
 * features, and Lowe's ratio test over FLANN's two-nearest-neighbour lists.
 *
 * ORB detection and the FLANN/LSH search are foreign calls: their outputs are
 * inputs here. ORB descriptors are compared by Hamming distance, so distances
 * are natural numbers and the ratio 0.7 is the fraction 7/10.
 */
module Matcher {
  import opened Wrappers
  import opened FeatureRecord

  /** Matches an entry needs before it counts as recognised. */
  const MinMatchCount: nat := 10

  /** `cv2.DMatch`: indices into the query and train descriptor sets, and their distance. */
  datatype DMatch = DMatch(queryIdx: nat, trainIdx: nat, distance: nat)

  /** `knnMatch(..., k=2)`: one neighbour list per query descriptor. */
  type KnnResult = seq<seq<DMatch>>

  /**
   * The FLANN search, seen from outside: query and train descriptors to
   * neighbour lists. One fixed function; the LSH tables that a new matcher
   * draws at random on every call are not modelled.
   */
  type KnnSearch = (seq<Descriptor>, seq<Descriptor>) -> KnnResult

  /** A ratio num/den for the ratio test. */
  datatype Ratio = Ratio(num: nat, den: nat)

  predicate ValidRatio(r: Ratio) {
    r.den > 0
  }

  /** `Matcher.match`'s ratio, 0.7. */
  const Lowe: Ratio := Ratio(7, 10)

  /** r is at most s. */
  predicate RatioAtMost(r: Ratio, s: Ratio) {
    r.num * s.den <= s.num * r.den
  }

  /** `m.distance < ratio * n.distance`, cleared of the division. */
  predicate Passes(m: DMatch, n: DMatch, ratio: Ratio) {
    ratio.den * m.distance < ratio.num * n.distance
  }

  /** A neighbour list the filter keeps: exactly two neighbours, and the nearest passes. */
  predicate Good(l: seq<DMatch>, ratio: Ratio) {
    |l| == 2 && Passes(l[0], l[1], ratio)
  }

  /** The nearest neighbour of every non-empty list, in order. */
  function Nearest(knn: KnnResult): (ms: seq<DMatch>)
    ensures |ms| <= |knn|
  {
    if |knn| == 0 then []
    else (if |knn[0]| > 0 then [knn[0][0]] else []) + Nearest(knn[1..])
  }

  /** a is obtained from b by deleting elements. */
  predicate IsSubseq<T(==)>(a: seq<T>, b: seq<T>)
    decreases |b|
  {
    if |b| == 0 then |a| == 0
    else (|a| > 0 && a[0] == b[0] && IsSubseq(a[1..], b[1..])) || IsSubseq(a, b[1..])
  }

  lemma {:induction false} SubseqLength<T>(a: seq<T>, b: seq<T>)
    requires IsSubseq(a, b)
    ensures |a| <= |b|
    decreases |b|
  {
    if |b| > 0 {
      if |a| > 0 && a[0] == b[0] && IsSubseq(a[1..], b[1..]) {
        SubseqLength(a[1..], b[1..]);
      } else {
        SubseqLength(a, b[1..]);
      }
    }
  }

  /**
   * The ratio test: the nearest neighbour of every list that holds exactly two
   * neighbours and passes, in input order.
   */
  function RatioFilter(knn: KnnResult, ratio: Ratio): (good: seq<DMatch>)
    ensures |good| <= |knn|
    ensures forall m :: m in good ==> exists i :: 0 <= i < |knn| && Good(knn[i], ratio) && knn[i][0] == m
    ensures forall i :: 0 <= i < |knn| && Good(knn[i], ratio) ==> knn[i][0] in good
    ensures IsSubseq(good, Nearest(knn))
  {
    if |knn| == 0 then []
    else
      var rest := RatioFilter(knn[1..], ratio);
      assert forall i :: 1 <= i < |knn| ==> knn[i] == knn[1..][i - 1];
      var near := Nearest(knn);
      assert |knn[0]| > 0 ==> near[1..] == Nearest(knn[1..]);
      assert |knn[0]| == 0 ==> near == Nearest(knn[1..]);
      if Good(knn[0], ratio) then [knn[0][0]] + rest else rest
  }

  /** The filter distributes over concatenation of its input. */
  lemma {:induction false} RatioFilterAppend(a: KnnResult, b: KnnResult, ratio: Ratio)
    ensures RatioFilter(a + b, ratio) == RatioFilter(a, ratio) + RatioFilter(b, ratio)
    decreases |a|
  {
    if |a| > 0 {
      assert (a + b)[1..] == a[1..] + b;
      RatioFilterAppend(a[1..], b, ratio);
    } else {
      assert a + b == b;
    }
  }

  /** The positions, below k, of the lists the filter keeps. */
  function GoodIndicesBelow(knn: KnnResult, ratio: Ratio, k: nat): set<nat>
    requires k <= |knn|
  {
    set i: nat | i < k && Good(knn[i], ratio)
  }

  /**
   * The filter keeps one match per Good list: its length is the number of
   * lists that hold exactly two neighbours and pass, duplicates included.
   */
  lemma RatioFilterCount(knn: KnnResult, ratio: Ratio)
    ensures |RatioFilter(knn, ratio)| == |GoodIndicesBelow(knn, ratio, |knn|)|
  {
    RatioFilterCountPrefix(knn, ratio, |knn|);
    assert knn[..|knn|] == knn;
  }

  lemma {:induction false} RatioFilterCountPrefix(knn: KnnResult, ratio: Ratio, k: nat)
    requires k <= |knn|
    ensures |RatioFilter(knn[..k], ratio)| == |GoodIndicesBelow(knn, ratio, k)|
    decreases k
  {
    if k == 0 {
      assert GoodIndicesBelow(knn, ratio, 0) == {};
    } else {
      RatioFilterCountPrefix(knn, ratio, k - 1);
      var l := knn[k - 1];
      assert knn[..k] == knn[..k - 1] + [l];
      RatioFilterAppend(knn[..k - 1], [l], ratio);
      RatioFilterSingle(l, ratio);
      GoodIndicesStep(knn, ratio, k);
    }
  }

  /** Extending the range by one position adds that position exactly when its list is Good. */
  lemma GoodIndicesStep(knn: KnnResult, ratio: Ratio, k: nat)
    requires 0 < k <= |knn|
    ensures |GoodIndicesBelow(knn, ratio, k)|
            == |GoodIndicesBelow(knn, ratio, k - 1)| + (if Good(knn[k - 1], ratio) then 1 else 0)
  {
    var below := GoodIndicesBelow(knn, ratio, k - 1);
    if Good(knn[k - 1], ratio) {
      assert GoodIndicesBelow(knn, ratio, k) == below + {k - 1};
      assert k - 1 !in below;
    } else {
      assert GoodIndicesBelow(knn, ratio, k) == below;
    }
  }

  /** A single list is kept, as its nearest neighbour, exactly when it is Good. */
  lemma RatioFilterSingle(l: seq<DMatch>, ratio: Ratio)
    ensures RatioFilter([l], ratio) == (if Good(l, ratio) then [l[0]] else [])
  {
    assert [l][1..] == [];
  }

  /**
   * A list with fewer than two neighbours is skipped without effect, wherever
   * it stands.
   */
  lemma ShortListSkipped(a: KnnResult, l: seq<DMatch>, b: KnnResult, ratio: Ratio)
    requires |l| < 2
    ensures RatioFilter(a + [l] + b, ratio) == RatioFilter(a + b, ratio)
  {
    RatioFilterAppend(a + [l], b, ratio);
    RatioFilterAppend(a, [l], ratio);
    RatioFilterSingle(l, ratio);
    RatioFilterAppend(a, b, ratio);
  }

  /**
   * `Matcher.match`'s test on one pair: accepted exactly when 10 m < 7 n, strictly;
   * equality is rejected and a zero second distance rejects any first.
   */
  lemma LoweAcceptance(m: DMatch, n: DMatch)
    ensures RatioFilter([[m, n]], Lowe) == [m] <==> 10 * m.distance < 7 * n.distance
    ensures RatioFilter([[m, n]], Lowe) != [m] ==> RatioFilter([[m, n]], Lowe) == []
    ensures 10 * m.distance == 7 * n.distance ==> RatioFilter([[m, n]], Lowe) == []
    ensures n.distance == 0 ==> RatioFilter([[m, n]], Lowe) == []
  {
    RatioFilterSingle([m, n], Lowe);
  }

  /** A pair accepted under a ratio is accepted under every larger ratio. */
  lemma PassesMonotone(m: DMatch, n: DMatch, tight: Ratio, loose: Ratio)
    requires ValidRatio(tight) && ValidRatio(loose) && RatioAtMost(tight, loose)
    requires Passes(m, n, tight)
    ensures Passes(m, n, loose)
  {
    var a, b, c, d := tight.num, tight.den, loose.num, loose.den;
    var x, y := m.distance, n.distance;
    // b x < a y and a d <= c b, so b (d x) < b (c y)
    assert d * (b * x) < d * (a * y) by {
      assert b * x < a * y;
    }
    assert d * (a * y) == (a * d) * y;
    assert (a * d) * y <= (c * b) * y;
    assert b * (d * x) < b * (c * y);
  }

  /**
   * Tightening the ratio never grows the result: what a tighter ratio accepts
   * is an order-preserving subsequence of what a looser one accepts.
   */
  lemma {:induction false} RatioFilterMonotone(knn: KnnResult, tight: Ratio, loose: Ratio)
    requires ValidRatio(tight) && ValidRatio(loose) && RatioAtMost(tight, loose)
    ensures IsSubseq(RatioFilter(knn, tight), RatioFilter(knn, loose))
    ensures |RatioFilter(knn, tight)| <= |RatioFilter(knn, loose)|
    decreases |knn|
  {
    var t, l := RatioFilter(knn, tight), RatioFilter(knn, loose);
    if |knn| > 0 {
      var t', l' := RatioFilter(knn[1..], tight), RatioFilter(knn[1..], loose);
      RatioFilterMonotone(knn[1..], tight, loose);
      if Good(knn[0], tight) {
        PassesMonotone(knn[0][0], knn[0][1], tight, loose);
        assert t == [knn[0][0]] + t' && l == [knn[0][0]] + l';
        assert t[1..] == t' && l[1..] == l';
      } else if Good(knn[0], loose) {
        assert t == t' && l == [knn[0][0]] + l';
        assert l[1..] == l';
      }
    }
    SubseqLength(t, l);
  }

  /**
   * `Matcher.match`: its loop over the FLANN result for
   * (src, target), keeping the nearest neighbour of each Good list.
   */
  method Match(src: seq<Descriptor>, target: seq<Descriptor>, search: KnnSearch) returns (good: seq<DMatch>)
    ensures good == RatioFilter(search(src, target), Lowe)
    ensures |good| <= |search(src, target)|
  {
    var matches := search(src, target);
    good := [];
    var i := 0;
    while i < |matches|
      invariant 0 <= i <= |matches|
      invariant good == RatioFilter(matches[..i], Lowe)
    {
      var l := matches[i];
      if |l| == 2 {
        var m, n := l[0], l[1];
        if 10 * m.distance < 7 * n.distance {
          good := good + [m];
        }
      }
      RatioFilterAppend(matches[..i], [l], Lowe);
      RatioFilterSingle(l, Lowe);
      assert matches[..i + 1] == matches[..i] + [l];
      i := i + 1;
    }
    assert matches[..i] == matches;
  }

  /** Errors raised while pairing detector output. */
  datatype MatcherError = TypeError

  /** Python's `zip`: positional pairs, cut to the shorter sequence. */
  function ZipFeatures(kps: seq<KeyPoint>, des: seq<Descriptor>): (fs: seq<Feature>)
    ensures |fs| == if |kps| <= |des| then |kps| else |des|
    ensures forall i :: 0 <= i < |fs| ==> fs[i] == New(kps[i], des[i])
  {
    if |kps| == 0 || |des| == 0 then []
    else [New(kps[0], des[0])] + ZipFeatures(kps[1..], des[1..])
  }

  /**
   * `Matcher.features`: `kps` and `des` are what ORB's `detectAndCompute`
   * returned. OpenCV returns no descriptor array (`None`) when it finds no
   * keypoint, and `zip` over `None` raises a TypeError.
   */
  function Features(kps: seq<KeyPoint>, des: Option<seq<Descriptor>>): (r: Result<seq<Feature>, MatcherError>)
    ensures r.Failure? <==> des.None?
    ensures r.Success? ==> r.value == ZipFeatures(kps, des.value)
  {
    match des
    case None => Failure(TypeError)
    case Some(d) => Success(ZipFeatures(kps, d))
  }
}
