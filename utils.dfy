/**
 * The pure helpers of js/utils.js: map distance, the five-tier scoring and its
 * labels, and the Fisher-Yates shuffle with the random sampler built on it.
 *
 * Distances are kept as their SQUARE. Coordinates are integers, so the squared
 * distance is an exact natural number, and for a non-negative distance d and a
 * non-negative threshold t, d <= t holds exactly when d * d <= t * t
 * (WithinDistanceIsEuclidean). Every comparison the game makes against a
 * threshold is therefore made here on squares, with no square root.
 *
 * Math.random is replaced by caller-supplied draws: for the swap at index i the
 * shuffle uses picks[i], which must lie in [0, i] as Math.floor(Math.random() * (i + 1)) does.
 */
module Utils {
  import opened Locations

  function Min(a: nat, b: nat): nat {
    if a <= b then a else b
  }

  // ----- distance -----

  /** |v|. */
  function Abs(v: int): nat {
    if v < 0 then -v else v
  }

  /**
   * n * n, written as the sum of the first n odd numbers so that proofs about the
   * game see no product of two unknowns; SquareIsProduct connects the two.
   */
  function Square(n: nat): nat {
    if n == 0 then 0 else Square(n - 1) + 2 * n - 1
  }

  lemma {:induction false} SquareIsProduct(n: nat)
    ensures Square(n) == n * n
  {
    if n > 0 {
      SquareIsProduct(n - 1);
      assert (n - 1) * (n - 1) == n * n - 2 * n + 1;
    }
  }

  /** calculateDistance, squared: (x1 - x2)^2 + (y1 - y2)^2. */
  function SquaredDistance(p1: Coordinates, p2: Coordinates): nat {
    Square(Abs(p1.x - p2.x)) + Square(Abs(p1.y - p2.y))
  }

  /** SquaredDistance is the sum of the squared coordinate differences of the source. */
  lemma SquaredDistanceIsSumOfSquares(p1: Coordinates, p2: Coordinates)
    ensures SquaredDistance(p1, p2) == (p1.x - p2.x) * (p1.x - p2.x) + (p1.y - p2.y) * (p1.y - p2.y)
  {
    var dx, dy := p1.x - p2.x, p1.y - p2.y;
    SquareIsProduct(Abs(dx));
    SquareIsProduct(Abs(dy));
    assert Abs(dx) * Abs(dx) == dx * dx;
    assert Abs(dy) * Abs(dy) == dy * dy;
  }

  /** `distance <= threshold`, stated on the squared distance. */
  predicate WithinDistance(distanceSquared: nat, threshold: nat) {
    distanceSquared <= threshold * threshold
  }

  lemma SquaredDistanceSymmetric(p1: Coordinates, p2: Coordinates)
    ensures SquaredDistance(p1, p2) == SquaredDistance(p2, p1)
  {
  }

  /** The distance is zero for identical points, and only for them. */
  lemma SquaredDistanceZeroIffSamePoint(p1: Coordinates, p2: Coordinates)
    ensures SquaredDistance(p1, p2) == 0 <==> p1 == p2
  {
    SquareIsProduct(Abs(p1.x - p2.x));
    SquareIsProduct(Abs(p1.y - p2.y));
  }

  /**
   * The bridge to the Euclidean distance of the source: for the real distance d
   * whose square is `distanceSquared`, `d <= threshold` is exactly WithinDistance.
   */
  lemma WithinDistanceIsEuclidean(distance: real, distanceSquared: nat, threshold: nat)
    requires 0.0 <= distance && distance * distance == distanceSquared as real
    ensures distance <= threshold as real <==> WithinDistance(distanceSquared, threshold)
  {
    var t := threshold as real;
    assert (threshold * threshold) as real == t * t;
    if distance <= t {
      assert distance * distance <= distance * t;
      assert distance * t <= t * t;
    } else {
      var gap := distance - t;
      assert distance * distance == t * t + gap * (distance + t);
      assert gap * (distance + t) > 0.0;
    }
  }

  // ----- scoring -----

  /** Math.round(base * tenths / 10) for a non-negative product. */
  function RoundedShare(base: nat, tenths: nat): nat {
    (base * tenths + 5) / 10
  }

  /** calculateScore: the first threshold the distance falls within decides the points. */
  function CalculateScore(cfg: GameConfig, distanceSquared: nat): (points: nat)
    ensures WithinDistance(distanceSquared, cfg.distanceThresholds.perfect) ==> points == cfg.basePoints
    ensures points <= cfg.basePoints
  {
    var t := cfg.distanceThresholds;
    var b := cfg.basePoints;
    if WithinDistance(distanceSquared, t.perfect) then b
    else if WithinDistance(distanceSquared, t.great) then RoundedShare(b, 8)
    else if WithinDistance(distanceSquared, t.good) then RoundedShare(b, 6)
    else if WithinDistance(distanceSquared, t.okay) then RoundedShare(b, 4)
    else RoundedShare(b, 1)
  }

  /** getScoreDescription: the same chain of thresholds, ending in labels. */
  function GetScoreDescription(cfg: GameConfig, distanceSquared: nat): (text: string)
    ensures text in ["Perfect!", "Great guess!", "Good job!", "Not bad!", "Better luck next time!"]
  {
    var t := cfg.distanceThresholds;
    if WithinDistance(distanceSquared, t.perfect) then "Perfect!"
    else if WithinDistance(distanceSquared, t.great) then "Great guess!"
    else if WithinDistance(distanceSquared, t.good) then "Good job!"
    else if WithinDistance(distanceSquared, t.okay) then "Not bad!"
    else "Better luck next time!"
  }

  /**
   * A guess further away never scores more. This holds for any thresholds, ascending
   * or not: a larger distance can only fall within fewer of them.
   */
  lemma ScoreNonIncreasing(cfg: GameConfig, d1: nat, d2: nat)
    requires d1 <= d2
    ensures CalculateScore(cfg, d1) >= CalculateScore(cfg, d2)
  {
    var b := cfg.basePoints;
    assert b >= RoundedShare(b, 8) >= RoundedShare(b, 6) >= RoundedShare(b, 4) >= RoundedShare(b, 1);
  }

  /** With the shipped configuration, a round scores one of five values. */
  lemma ShippedScoreValues(distanceSquared: nat)
    ensures CalculateScore(Config, distanceSquared) in {1000, 800, 600, 400, 100}
  {
  }

  /**
   * Label and points move in lockstep: each label goes with exactly one amount of
   * points, provided basePoints is large enough for the five rounded shares to differ.
   */
  lemma DescriptionMatchesScore(cfg: GameConfig, distanceSquared: nat)
    requires cfg.basePoints >= 10
    ensures var b := cfg.basePoints;
      var p := CalculateScore(cfg, distanceSquared);
      var text := GetScoreDescription(cfg, distanceSquared);
      && (text == "Perfect!" <==> p == b)
      && (text == "Great guess!" <==> p == RoundedShare(b, 8))
      && (text == "Good job!" <==> p == RoundedShare(b, 6))
      && (text == "Not bad!" <==> p == RoundedShare(b, 4))
      && (text == "Better luck next time!" <==> p == RoundedShare(b, 1))
  {
    var b := cfg.basePoints;
    assert b > RoundedShare(b, 8) > RoundedShare(b, 6) > RoundedShare(b, 4) > RoundedShare(b, 1);
  }

  /** Guesses at distance exactly 25, 100 and 1000 from the answer. */
  lemma ScoringExamples()
    ensures CalculateScore(Config, 25 * 25) == 1000 && GetScoreDescription(Config, 25 * 25) == "Perfect!"
    ensures CalculateScore(Config, 100 * 100) == 600 && GetScoreDescription(Config, 100 * 100) == "Good job!"
    ensures CalculateScore(Config, 1000 * 1000) == 100
    ensures GetScoreDescription(Config, 1000 * 1000) == "Better luck next time!"
  {
  }

  // ----- shuffling -----

  /** `picks` supplies a Fisher-Yates draw picks[i] in [0, i] for each index i < n. */
  predicate ValidDraws(picks: seq<nat>, n: nat) {
    n <= |picks| && forall i :: 0 <= i < n ==> picks[i] <= i
  }

  /** The destructuring swap `[s[i], s[j]] = [s[j], s[i]]`. */
  function Swap<T>(s: seq<T>, i: nat, j: nat): seq<T>
    requires i < |s| && j < |s|
  {
    s[i := s[j]][j := s[i]]
  }

  /** Swap exchanges the two entries, leaves every other entry in place, and so keeps the multiset. */
  lemma SwapSpec<T>(s: seq<T>, i: nat, j: nat)
    requires i < |s| && j < |s|
    ensures |Swap(s, i, j)| == |s| && Swap(s, i, j)[i] == s[j] && Swap(s, i, j)[j] == s[i]
    ensures forall k :: 0 <= k < |s| && k != i && k != j ==> Swap(s, i, j)[k] == s[k]
    ensures multiset(Swap(s, i, j)) == multiset(s)
  {
  }

  /** The shuffle loop's remaining iterations, for indices i, i - 1, ..., 1. */
  function ShuffleDown<T>(s: seq<T>, picks: seq<nat>, i: nat): (r: seq<T>)
    requires i < |s| && ValidDraws(picks, i + 1)
    ensures |r| == |s|
    decreases i
  {
    if i == 0 then s else ShuffleDown(Swap(s, i, picks[i]), picks, i - 1)
  }

  /** Each swap only exchanges two entries, so the loop permutes its input. */
  lemma {:induction false} ShuffleDownPermutes<T>(s: seq<T>, picks: seq<nat>, i: nat)
    requires i < |s| && ValidDraws(picks, i + 1)
    ensures multiset(ShuffleDown(s, picks, i)) == multiset(s)
    decreases i
  {
    if i > 0 {
      var t := Swap(s, i, picks[i]);
      SwapSpec(s, i, picks[i]);
      ShuffleDownPermutes(t, picks, i - 1);
    }
  }

  /** What shuffleArray returns for input `s` and draws `picks`. */
  function Shuffled<T>(s: seq<T>, picks: seq<nat>): seq<T>
    requires ValidDraws(picks, |s|)
  {
    if |s| == 0 then s else ShuffleDown(s, picks, |s| - 1)
  }

  /** The shuffle is a permutation of its input. */
  lemma ShuffledPermutes<T>(s: seq<T>, picks: seq<nat>)
    requires ValidDraws(picks, |s|)
    ensures |Shuffled(s, picks)| == |s| && multiset(Shuffled(s, picks)) == multiset(s)
  {
    if |s| > 0 {
      ShuffleDownPermutes(s, picks, |s| - 1);
    }
  }

  /**
   * shuffleArray: copies the input into a fresh array and runs Fisher-Yates on the
   * copy, from the last index down to 1. The input is a value, so it is left as it was.
   */
  method ShuffleArray<T>(source: seq<T>, picks: seq<nat>) returns (shuffled: seq<T>)
    requires ValidDraws(picks, |source|)
    ensures shuffled == Shuffled(source, picks)
    ensures |shuffled| == |source| && multiset(shuffled) == multiset(source)
  {
    var a := new T[|source|](k requires 0 <= k < |source| => source[k]);
    assert a[..] == source;
    ShuffledPermutes(source, picks);
    if a.Length == 0 {
      return a[..];
    }
    var i: int := a.Length - 1;
    while i > 0
      invariant 0 <= i < a.Length == |source|
      invariant ShuffleDown(a[..], picks, i) == Shuffled(source, picks)
    {
      var j := picks[i];
      ghost var before := a[..];
      var tmp := a[i];
      a[i] := a[j];
      a[j] := tmp;
      assert a[..] == Swap(before, i, j);
      i := i - 1;
    }
    shuffled := a[..];
  }

  lemma PrefixIsSubMultiset<T>(s: seq<T>, k: nat)
    requires k <= |s|
    ensures multiset(s[..k]) <= multiset(s)
  {
    assert s == s[..k] + s[k..];
  }

  /** What getRandomElements returns: the first `count` entries of the shuffle (slice clamps at the end). */
  function RandomElements<T>(s: seq<T>, count: nat, picks: seq<nat>): seq<T>
    requires ValidDraws(picks, |s|)
  {
    ShuffledPermutes(s, picks);
    Shuffled(s, picks)[..Min(count, |s|)]
  }

  /**
   * The sample has min(count, |s|) entries, taken from distinct positions of the
   * input: a sub-multiset of it.
   */
  lemma RandomElementsSpec<T>(s: seq<T>, count: nat, picks: seq<nat>)
    requires ValidDraws(picks, |s|)
    ensures |RandomElements(s, count, picks)| == Min(count, |s|)
    ensures multiset(RandomElements(s, count, picks)) <= multiset(s)
  {
    ShuffledPermutes(s, picks);
    PrefixIsSubMultiset(Shuffled(s, picks), Min(count, |s|));
  }

  /** getRandomElements: shuffle a copy, then keep the first `count`. */
  method GetRandomElements<T>(s: seq<T>, count: nat, picks: seq<nat>) returns (r: seq<T>)
    requires ValidDraws(picks, |s|)
    ensures r == RandomElements(s, count, picks)
    ensures |r| == Min(count, |s|) && multiset(r) <= multiset(s)
  {
    var shuffled := ShuffleArray(s, picks);
    r := shuffled[..Min(count, |s|)];
    RandomElementsSpec(s, count, picks);
  }
}
