/**
 * The arithmetic behind a user's rating aggregate: the number of ratings
 * about a user, the sum of their scores, and the mean rounded to one
 * decimal as Math.round(mean * 10) / 10 (halves rounded up).
 */
module RatingMath {
  import opened Records

  /** The number of ratings about user u. */
  function CountAbout(rs: seq<Rating>, u: nat): nat {
    if |rs| == 0 then 0
    else CountAbout(rs[..|rs| - 1], u) + (if rs[|rs| - 1].ratedId == u then 1 else 0)
  }

  /** The sum of the scores of the ratings about user u. */
  function ScoreSum(rs: seq<Rating>, u: nat): int {
    if |rs| == 0 then 0
    else ScoreSum(rs[..|rs| - 1], u) + (if rs[|rs| - 1].ratedId == u then rs[|rs| - 1].score else 0)
  }

  /** A whole number of tenths. */
  predicate WholeTenths(x: real) {
    (x * 10.0).Floor as real == x * 10.0
  }

  /** Math.round(x * 10) / 10: the nearest tenth, halves rounded up. */
  function Round1(x: real): (r: real)
    ensures WholeTenths(r)
    ensures -0.05 < r - x <= 0.05
  {
    var k := (x * 10.0 + 0.5).Floor;
    assert (k as real / 10.0) * 10.0 == k as real;
    k as real / 10.0
  }

  /** The averageRating stored for u: the rounded mean of the scores about u, 0 when there are none. */
  function StoredAverage(rs: seq<Rating>, u: nat): real {
    var n := CountAbout(rs, u);
    if n == 0 then 0.0 else Round1(ScoreSum(rs, u) as real / n as real)
  }

  predicate ScoresInRange(rs: seq<Rating>) {
    forall i :: 0 <= i < |rs| ==> 1 <= rs[i].score <= 5
  }

  /** Appending a rating changes the aggregates of its rated user only, by one rating and its score. */
  lemma AppendRating(rs: seq<Rating>, r: Rating, u: nat)
    ensures CountAbout(rs + [r], u) == CountAbout(rs, u) + (if r.ratedId == u then 1 else 0)
    ensures ScoreSum(rs + [r], u) == ScoreSum(rs, u) + (if r.ratedId == u then r.score else 0)
  {
    assert (rs + [r])[..|rs|] == rs;
  }

  /** A user nobody has rated has no ratings, and a stored average of 0. */
  lemma {:induction false} NoRatingsAbout(rs: seq<Rating>, u: nat)
    requires forall i :: 0 <= i < |rs| ==> rs[i].ratedId != u
    ensures CountAbout(rs, u) == 0 && ScoreSum(rs, u) == 0 && StoredAverage(rs, u) == 0.0
  {
    if |rs| > 0 {
      NoRatingsAbout(rs[..|rs| - 1], u);
    }
  }

  /** With every score in 1..5, the scores about u sum to between n and 5n for n ratings. */
  lemma {:induction false} SumBetweenCountBounds(rs: seq<Rating>, u: nat)
    requires ScoresInRange(rs)
    ensures CountAbout(rs, u) <= ScoreSum(rs, u) <= 5 * CountAbout(rs, u)
  {
    if |rs| > 0 {
      SumBetweenCountBounds(rs[..|rs| - 1], u);
    }
  }

  /** A quotient of two reals whose numerator lies between 1 and 5 times the positive divisor lies in [1, 5]. */
  lemma QuotientBetween(s: real, n: real)
    requires n > 0.0 && n <= s <= 5.0 * n
    ensures 1.0 <= s / n <= 5.0
  {
    var q := s / n;
    assert q * n == s;
    if q < 1.0 {
      ProductPositive(1.0 - q, n);
      assert false;
    } else if q > 5.0 {
      ProductPositive(q - 5.0, n);
      assert false;
    }
  }

  lemma ProductPositive(a: real, b: real)
    requires a > 0.0 && b > 0.0
    ensures a * b > 0.0
  {
  }

  /** Rounding to a tenth keeps a value of [1, 5] inside [1, 5]. */
  lemma Round1Between(x: real)
    requires 1.0 <= x <= 5.0
    ensures 1.0 <= Round1(x) <= 5.0
  {
    var r := Round1(x);
    var k := (r * 10.0).Floor;
    assert k as real == r * 10.0;
    assert 9.5 < k as real <= 50.5;
  }

  /** With every score in 1..5, a rated user's stored average lies in [1, 5]. */
  lemma AverageInRange(rs: seq<Rating>, u: nat)
    requires ScoresInRange(rs)
    requires CountAbout(rs, u) > 0
    ensures 1.0 <= StoredAverage(rs, u) <= 5.0
  {
    var n := CountAbout(rs, u);
    var s := ScoreSum(rs, u);
    SumBetweenCountBounds(rs, u);
    QuotientBetween(s as real, n as real);
    Round1Between(s as real / n as real);
  }
}
