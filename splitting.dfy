/**
  `train_test_split`: shuffle a copy of the image list and cut it at
  `int(len * train_ratio)`.  Ratios are exact non-negative rationals
  `num/den` with `den > 0`; the source's `0.8` is `TrainRatio`.
*/
module Splitting {
  import opened Arith
  import opened Random

  datatype Fraction = Fraction(num: nat, den: nat)

  /** A non-negative rational `num/den`, standing for one of the source's float ratios. */
  type Ratio = f: Fraction | f.den > 0 witness Fraction(0, 1)

  /** `TRAIN_RATIO = 0.8`. */
  const TrainRatio: Ratio := Fraction(4, 5)

  /** `int(n * ratio)`: the product truncated to an integer. */
  function SplitIndex(n: nat, ratio: Ratio): nat {
    Quotient(n * ratio.num, ratio.den)
  }

  /** The truncated product is the largest `k` with `k <= n * ratio`. */
  lemma SplitIndexBounds(n: nat, ratio: Ratio)
    ensures SplitIndex(n, ratio) * ratio.den <= n * ratio.num < (SplitIndex(n, ratio) + 1) * ratio.den
  {
    QuotientBounds(n * ratio.num, ratio.den);
  }

  /** A ratio of at most one never cuts past the end of the list. */
  lemma SplitIndexAtMost(n: nat, ratio: Ratio)
    requires ratio.num <= ratio.den
    ensures SplitIndex(n, ratio) <= n
  {
    var k := SplitIndex(n, ratio);
    SplitIndexBounds(n, ratio);
    MulMonotone(ratio.num, ratio.den, n);
    assert (n + 1) * ratio.den == n * ratio.den + ratio.den;
    MulCancelLess(k, n + 1, ratio.den);
  }

  /** Python's slice bound: a cut past the end is the end. */
  function Cut(n: nat, ratio: Ratio): (k: nat)
    ensures k <= n
    ensures k == SplitIndex(n, ratio) || k == n < SplitIndex(n, ratio)
  {
    var k := SplitIndex(n, ratio);
    if k <= n then k else n
  }

  /** The training half `train_test_split` returns when the next draw is number `d`. */
  function TrainHalf<T>(images: seq<T>, ratio: Ratio, stream: nat -> nat, d: nat): seq<T> {
    ShuffledPermutes(images, stream, d);
    Shuffled(images, stream, d)[..Cut(|images|, ratio)]
  }

  /** The test half: the rest of the shuffled list. */
  function TestHalf<T>(images: seq<T>, ratio: Ratio, stream: nat -> nat, d: nat): seq<T> {
    ShuffledPermutes(images, stream, d);
    Shuffled(images, stream, d)[Cut(|images|, ratio)..]
  }

  /**
    The two halves together are a permutation of the input: train
    followed by test is the shuffled list, and the training half has
    `int(n * ratio)` images (capped at `n`).
  */
  lemma SplitPartition<T>(images: seq<T>, ratio: Ratio, stream: nat -> nat, d: nat)
    ensures TrainHalf(images, ratio, stream, d) + TestHalf(images, ratio, stream, d) == Shuffled(images, stream, d)
    ensures |TrainHalf(images, ratio, stream, d)| == Cut(|images|, ratio)
    ensures |TestHalf(images, ratio, stream, d)| == |images| - Cut(|images|, ratio)
    ensures multiset(TrainHalf(images, ratio, stream, d)) + multiset(TestHalf(images, ratio, stream, d)) == multiset(images)
  {
    var shuffled := Shuffled(images, stream, d);
    ShuffledPermutes(images, stream, d);
    var k := Cut(|images|, ratio);
    assert shuffled[..k] + shuffled[k..] == shuffled;
  }

  /** With the source's 0.8 the training half has exactly `int(0.8 * n)` images. */
  lemma TrainRatioSizes<T>(images: seq<T>, stream: nat -> nat, d: nat)
    ensures 5 * |TrainHalf(images, TrainRatio, stream, d)| <= 4 * |images| < 5 * |TrainHalf(images, TrainRatio, stream, d)| + 5
  {
    SplitIndexBounds(|images|, TrainRatio);
    SplitIndexAtMost(|images|, TrainRatio);
    SplitPartition(images, TrainRatio, stream, d);
  }

  /**
    `train_test_split(images, train_ratio)`: the caller's list is a value
    and stays as it was; the work is done on a fresh array.
  */
  method TrainTestSplit<T>(images: seq<T>, ratio: Ratio, rng: Rng) returns (train: seq<T>, test: seq<T>)
    modifies rng
    ensures train == TrainHalf(images, ratio, rng.stream, old(rng.drawn))
    ensures test == TestHalf(images, ratio, rng.stream, old(rng.drawn))
    ensures rng.drawn == old(rng.drawn) + ShuffleDraws(|images|)
  {
    var copy := new T[|images|](i requires 0 <= i < |images| => images[i]);
    assert copy[..] == images;
    Shuffle(copy, rng);
    var k := SplitIndex(copy.Length, ratio);
    if k > copy.Length {
      k := copy.Length;
    }
    train, test := copy[..k], copy[k..];
  }

}
