/**
 * The rating aggregator: the average and count shown for a workshop, and
 * the five-glyph star string.
 *
 * JavaScript computes the average as a float `sum / n` and rounds it with
 * `toFixed(1)`. Here the average is an integer number of tenths computed
 * from the exact quotient: `toFixed` picks the nearest tenth, the larger
 * one on a tie, and formats negative values as the negation of their
 * magnitude, so a tie below zero goes away from zero.
 */
module RatingStats {
  import opened Wrappers
  import opened Reviews

  /** `{average, count}` with the average held as tenths (4.3 is 43). */
  datatype Stats = Stats(avgTenths: int, count: nat)

  /** The stars the aggregator draws: filled and empty. */
  const FULL_STAR: char := '★'
  const EMPTY_STAR: char := '☆'

  /** The `reduce` that adds up the ratings, left to right, from 0. */
  function Sum(reviews: seq<Review>): (r: int)
    ensures reviews == [] ==> r == 0
    ensures (forall i :: 0 <= i < |reviews| ==> reviews[i].rating >= 0) ==> r >= 0
  {
    if reviews == [] then 0 else Sum(reviews[..|reviews| - 1]) + reviews[|reviews| - 1].rating
  }

  /** One step of the `reduce`: the next rating is added to the total. */
  lemma SumAppend(reviews: seq<Review>, x: Review)
    ensures Sum(reviews + [x]) == Sum(reviews) + x.rating
  {
  }

  /** Every rating lies in [lo, hi]. */
  predicate RatingsWithin(reviews: seq<Review>, lo: int, hi: int)
  {
    forall i :: 0 <= i < |reviews| ==> lo <= reviews[i].rating <= hi
  }

  /** `t` tenths is what `(sum / n).toFixed(1)` denotes: the tenth nearest
      to sum/n, so that |10 * sum / n - t| <= 1/2, with a tie going up for a
      non-negative quotient and down (away from zero) for a negative one. */
  predicate IsToFixedTenths(sum: int, n: nat, t: int)
  {
    if sum >= 0 then n * (2 * t - 1) <= 20 * sum < n * (2 * t + 1)
    else n * (2 * t - 1) < 20 * sum <= n * (2 * t + 1)
  }

  /** The rounding of a non-negative quotient: floor(10 * sum / n + 1/2). */
  function HalfUpTenths(sum: nat, n: nat): (t: nat)
    requires n > 0
    ensures n * (2 * t - 1) <= 20 * sum < n * (2 * t + 1)
  {
    var q := (20 * sum + n) / (2 * n);
    assert 2 * n * q <= 20 * sum + n < 2 * n * q + 2 * n;
    assert n * (2 * q - 1) == 2 * n * q - n && n * (2 * q + 1) == 2 * n * q + n;
    q
  }

  /** `(sum / n).toFixed(1)`, in tenths. */
  function ToFixedTenths(sum: int, n: nat): (t: int)
    requires n > 0
    ensures IsToFixedTenths(sum, n, t)
  {
    if sum >= 0 then HalfUpTenths(sum, n)
    else
      var m: int := HalfUpTenths(-sum, n);
      assert n * (2 * -m - 1) == -(n * (2 * m + 1)) && n * (2 * -m + 1) == -(n * (2 * m - 1));
      -m
  }

  lemma MulMonotone(n: nat, a: int, b: int)
    requires a <= b
    ensures n * a <= n * b
  {
  }

  /** The rounding condition determines the tenths: `ToFixedTenths` is the
      only value satisfying it. */
  lemma ToFixedTenthsUnique(sum: int, n: nat, t: int)
    requires n > 0
    requires IsToFixedTenths(sum, n, t)
    ensures t == ToFixedTenths(sum, n)
  {
    var u := ToFixedTenths(sum, n);
    if t < u {
      MulMonotone(n, 2 * t + 1, 2 * u - 1);
    } else if u < t {
      MulMonotone(n, 2 * u + 1, 2 * t - 1);
    }
  }

  /** `calculateRatingStats(reviews)`: an absent or empty list gives
      `{0, 0}`; otherwise the count is the length of the list and the
      average is the mean rating rounded by `toFixed(1)`. */
  function CalculateRatingStats(reviews: Option<seq<Review>>): (r: Stats)
    ensures (reviews.None? || reviews.value == []) ==> r == Stats(0, 0)
    ensures reviews.Some? && reviews.value != [] ==>
              r.count == |reviews.value| && IsToFixedTenths(Sum(reviews.value), r.count, r.avgTenths)
  {
    match reviews
    case None => Stats(0, 0)
    case Some(list) =>
      if |list| == 0 then Stats(0, 0)
      else Stats(ToFixedTenths(Sum(list), |list|), |list|)
  }

  lemma {:induction false} SumWithin(reviews: seq<Review>, lo: int, hi: int)
    requires RatingsWithin(reviews, lo, hi)
    ensures |reviews| * lo <= Sum(reviews) <= |reviews| * hi
  {
    if reviews != [] {
      var init := reviews[..|reviews| - 1];
      assert RatingsWithin(init, lo, hi) by {
        forall i | 0 <= i < |init| ensures lo <= init[i].rating <= hi {
          assert init[i] == reviews[i];
        }
      }
      SumWithin(init, lo, hi);
      assert |reviews| * lo == |init| * lo + lo && |reviews| * hi == |init| * hi + hi;
    }
  }

  /** A tenth within half a tenth of 10 * s / n, for s / n in [lo, hi],
      lies in [10 * lo, 10 * hi]. */
  lemma RoundedWithin(n: nat, s: int, t: int, lo: int, hi: int)
    requires n > 0
    requires n * (2 * t - 1) <= 20 * s <= n * (2 * t + 1)
    requires n * lo <= s <= n * hi
    ensures 10 * lo <= t <= 10 * hi
  {
    if t < 10 * lo {
      MulMonotone(n, 2 * t + 2, 20 * lo);
      assert false;
    }
    if t > 10 * hi {
      MulMonotone(n, 20 * hi, 2 * t - 2);
      assert false;
    }
  }

  /** The rounded average of ratings that all lie in [lo, hi] lies in
      [lo, hi] too (for the page's ratings 1..5: between 1.0 and 5.0). */
  lemma AverageWithin(reviews: seq<Review>, lo: int, hi: int)
    requires reviews != [] && RatingsWithin(reviews, lo, hi)
    ensures 10 * lo <= CalculateRatingStats(Some(reviews)).avgTenths <= 10 * hi
  {
    SumWithin(reviews, lo, hi);
    RoundedWithin(|reviews|, Sum(reviews), CalculateRatingStats(Some(reviews)).avgTenths, lo, hi);
  }

  /** `Math.round(tenths / 10)`: the nearest integer, a half going up. */
  function RoundTenths(tenths: int): (r: int)
    ensures -5 <= tenths - 10 * r < 5
  {
    (tenths + 5) / 10
  }

  /** `c.repeat(k)`. */
  function Repeat(c: char, k: nat): (s: string)
    ensures |s| == k
    ensures forall i :: 0 <= i < k ==> s[i] == c
  {
    if k == 0 then [] else Repeat(c, k - 1) + [c]
  }

  /** `getStarsHTML(tenths / 10)`: `repeat` throws on a negative count, so
      the rounded value has to lie in [0, 5]; then the string is exactly
      five glyphs, the first `rounded` of them filled. */
  function GetStarsHTML(tenths: int): (s: string)
    requires 0 <= RoundTenths(tenths) <= 5
    ensures |s| == 5
    ensures forall i :: 0 <= i < 5 ==> s[i] == if i < RoundTenths(tenths) then FULL_STAR else EMPTY_STAR
  {
    var rounded := RoundTenths(tenths);
    Repeat(FULL_STAR, rounded) + Repeat(EMPTY_STAR, 5 - rounded)
  }

  /** A review's own rating is a whole number, which `Math.round` keeps. */
  lemma RoundWhole(rating: int)
    ensures RoundTenths(10 * rating) == rating
  {
  }

  /** Ratings in [0, 5] give an average whose stars can be drawn. */
  lemma AverageStarsDrawable(reviews: seq<Review>)
    requires reviews != [] && RatingsWithin(reviews, 0, 5)
    ensures 0 <= RoundTenths(CalculateRatingStats(Some(reviews)).avgTenths) <= 5
  {
    AverageWithin(reviews, 0, 5);
  }

  /** Three reviews rated 5, 3 and 4 average 4.0 and draw four stars. */
  lemma ExampleThreeReviews(id: Option<string>)
    ensures var reviews := [Review(id, 5, "", ANONYMOUS), Review(id, 3, "", ANONYMOUS), Review(id, 4, "", ANONYMOUS)];
            CalculateRatingStats(Some(reviews)) == Stats(40, 3) && GetStarsHTML(40) == "★★★★☆"
  {
    var reviews := [Review(id, 5, "", ANONYMOUS), Review(id, 3, "", ANONYMOUS), Review(id, 4, "", ANONYMOUS)];
    assert Sum(reviews) == 12 by {
      assert reviews == [reviews[0], reviews[1]] + [reviews[2]];
      SumAppend([reviews[0], reviews[1]], reviews[2]);
      assert [reviews[0], reviews[1]] == [reviews[0]] + [reviews[1]];
      SumAppend([reviews[0]], reviews[1]);
      assert [reviews[0]] == [] + [reviews[0]];
      SumAppend([], reviews[0]);
    }
    ToFixedTenthsUnique(12, 3, 40);
    assert GetStarsHTML(40) == "★★★★☆";
  }

  /** An exact half rounds up: 17 / 4 = 4.25 becomes 4.3. */
  lemma ExampleTieRoundsUp()
    ensures ToFixedTenths(17, 4) == 43
  {
  }
}
