/** The per-platform popularity scores (youtube_score, forum_score, trends_score). Python's floats
    are modelled as exact reals and math.sqrt as a parameter `sqrt` about which only what a square
    root satisfies is assumed, so the identities below hold for the exact arithmetic, not for the
    rounded one. */
module Scores {
  import opened Common

  type SqrtFn = real -> real

  /** `sqrt` returns the non-negative square root of every non-negative argument. */
  ghost predicate IsSqrt(sqrt: SqrtFn)
  {
    forall x :: 0.0 <= x ==> 0.0 <= sqrt(x) && sqrt(x) * sqrt(x) == x
  }

  ghost predicate Monotone(sqrt: SqrtFn)
  {
    forall x, y :: 0.0 <= x <= y ==> sqrt(x) <= sqrt(y)
  }

  lemma SquaresOrdered(a: real, b: real)
    requires 0.0 <= b < a
    ensures b * b < a * a
  {
    PositiveProduct(a - b, a + b);
    assert a * a - b * b == (a - b) * (a + b);
  }

  lemma CancelFactor(a: real, o: real)
    requires o != 0.0
    ensures (a * o) / o == a
  {
  }

  lemma PositiveProduct(x: real, y: real)
    requires x > 0.0 && y > 0.0
    ensures x * y > 0.0
  {
  }

  /** A square root is monotone: the property the scores rely on. */
  lemma SqrtMonotone(sqrt: SqrtFn)
    requires IsSqrt(sqrt)
    ensures Monotone(sqrt)
  {
    forall x, y | 0.0 <= x <= y ensures sqrt(x) <= sqrt(y) {
      if sqrt(y) < sqrt(x) {
        SquaresOrdered(sqrt(x), sqrt(y));
        assert false;
      }
    }
  }

  lemma SqrtOfZero(sqrt: SqrtFn)
    requires IsSqrt(sqrt)
    ensures sqrt(0.0) == 0.0
  {
    var s := sqrt(0.0);
    if s > 0.0 {
      SquaresOrdered(s, 0.0);
      assert false;
    }
  }

  /** youtube_score: 0 without views, otherwise sqrt(views) weighted by the engagement ratios. */
  function YoutubeScore(sqrt: SqrtFn, views: int, likes: int, comments: int): (r: real)
    ensures views <= 0 ==> r == 0.0
  {
    if views <= 0 then 0.0
    else
      var likeRatio := if views != 0 then likes as real / views as real else 0.0;
      var commentRatio := if views != 0 then comments as real / views as real else 0.0;
      sqrt(views as real) * (1.0 + 3.0 * likeRatio + 5.0 * commentRatio)
  }

  /** With given like and comment ratios the score is sqrt(views) times a fixed weight. */
  lemma YoutubeScoreAtRatios(sqrt: SqrtFn, views: int, likes: int, comments: int,
                             likeRatio: real, commentRatio: real)
    requires views > 0
    requires likes as real == likeRatio * views as real
    requires comments as real == commentRatio * views as real
    ensures YoutubeScore(sqrt, views, likes, comments)
            == sqrt(views as real) * (1.0 + 3.0 * likeRatio + 5.0 * commentRatio)
  {
    assert likes as real / views as real == likeRatio;
    assert comments as real / views as real == commentRatio;
  }

  lemma YoutubeScoreNonNegative(sqrt: SqrtFn, views: int, likes: int, comments: int)
    requires IsSqrt(sqrt)
    requires likes >= 0 && comments >= 0
    ensures YoutubeScore(sqrt, views, likes, comments) >= 0.0
  {
    if views > 0 {
      var lr := likes as real / views as real;
      var cr := comments as real / views as real;
      assert lr >= 0.0 && cr >= 0.0;
      var weight := 1.0 + 3.0 * lr + 5.0 * cr;
      assert sqrt(views as real) >= 0.0;
      assert sqrt(views as real) * weight >= 0.0;
    }
  }

  /** Holding the engagement ratios fixed, more views never lower the score. */
  lemma YoutubeScoreMonotoneInViews(sqrt: SqrtFn, v1: int, l1: int, c1: int, v2: int, l2: int, c2: int)
    requires Monotone(sqrt)
    requires 0 < v1 <= v2
    requires l1 >= 0 && c1 >= 0
    requires l1 as real / v1 as real == l2 as real / v2 as real
    requires c1 as real / v1 as real == c2 as real / v2 as real
    ensures YoutubeScore(sqrt, v1, l1, c1) <= YoutubeScore(sqrt, v2, l2, c2)
  {
    var lr := l1 as real / v1 as real;
    var cr := c1 as real / v1 as real;
    var weight := 1.0 + 3.0 * lr + 5.0 * cr;
    assert weight >= 1.0;
    var s1, s2 := sqrt(v1 as real), sqrt(v2 as real);
    assert s1 <= s2;
    assert (s2 - s1) * weight >= 0.0;
    assert YoutubeScore(sqrt, v1, l1, c1) == s1 * weight;
    assert YoutubeScore(sqrt, v2, l2, c2) == s2 * weight;
  }

  /** 1000 views, 50 likes and 10 comments score sqrt(1000) * (1 + 3*0.05 + 5*0.01). */
  lemma YoutubeScoreExample(sqrt: SqrtFn)
    ensures YoutubeScore(sqrt, 1000, 50, 10) == sqrt(1000.0) * 1.2
  {
    YoutubeScoreAtRatios(sqrt, 1000, 50, 10, 0.05, 0.01);
  }

  /** forum_score: weighted replies, likes and contributors plus sqrt of the views floored at 0. */
  function ForumScore(sqrt: SqrtFn, replies: int, likes: int, contributors: int, views: int): (r: real)
  {
    var base := replies * 3 + likes * 2 + contributors * 5;
    base as real + sqrt(Max(views, 0) as real)
  }

  /** One more reply, like or contributor adds exactly 3, 2 or 5. */
  lemma ForumScoreSteps(sqrt: SqrtFn, replies: int, likes: int, contributors: int, views: int)
    ensures ForumScore(sqrt, replies + 1, likes, contributors, views)
            == ForumScore(sqrt, replies, likes, contributors, views) + 3.0
    ensures ForumScore(sqrt, replies, likes + 1, contributors, views)
            == ForumScore(sqrt, replies, likes, contributors, views) + 2.0
    ensures ForumScore(sqrt, replies, likes, contributors + 1, views)
            == ForumScore(sqrt, replies, likes, contributors, views) + 5.0
  {
  }

  /** Negative view counts count as sqrt(0), which adds nothing to the score. */
  lemma ForumScoreNegativeViews(sqrt: SqrtFn, replies: int, likes: int, contributors: int, views: int)
    requires views < 0
    ensures ForumScore(sqrt, replies, likes, contributors, views)
            == ForumScore(sqrt, replies, likes, contributors, 0)
            == (replies * 3 + likes * 2 + contributors * 5) as real + sqrt(0.0)
    ensures IsSqrt(sqrt) ==>
              ForumScore(sqrt, replies, likes, contributors, views) == (replies * 3 + likes * 2 + contributors * 5) as real
  {
    if IsSqrt(sqrt) {
      SqrtOfZero(sqrt);
    }
  }

  lemma ForumScoreMonotoneInViews(sqrt: SqrtFn, replies: int, likes: int, contributors: int, v1: int, v2: int)
    requires Monotone(sqrt)
    requires v1 <= v2
    ensures ForumScore(sqrt, replies, likes, contributors, v1)
            <= ForumScore(sqrt, replies, likes, contributors, v2)
  {
    assert sqrt(Max(v1, 0) as real) <= sqrt(Max(v2, 0) as real);
  }

  /** trends_score: the interest scaled by the percent change. */
  function TrendsScore(interest: int, changePct: real): (r: real)
    ensures changePct == 0.0 ==> r == interest as real
    ensures changePct == -100.0 ==> r == 0.0
    ensures changePct > -100.0 && interest > 0 ==> r > 0.0
  {
    interest as real * (1.0 + changePct / 100.0)
  }

  /** With a non-zero reference `reference`, the trends score is interest squared over the reference. */
  lemma TrendsScoreOverReference(interest: int, reference: int)
    requires reference != 0
    ensures TrendsScore(interest, (interest - reference) as real / reference as real * 100.0)
            == (interest as real * interest as real) / reference as real
  {
    var i, o := interest as real, reference as real;
    var q := (i - o) / o;
    assert q * o == i - o;
    assert (q * 100.0) / 100.0 == q;
    var a := 1.0 + q;
    assert a * o == i;
    CancelFactor(a, o);
    assert i / o == (a * o) / o;
    assert a == i / o;
    assert i * (i / o) == (i * i) / o;
  }
}
