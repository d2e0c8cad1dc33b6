/** The review store of assets/js/reviews.js: per-product lists, a rating
    histogram, one review per user and product, a "helpful" counter, and the
    two bucketing rules used for display (relative time, star counts). */
module Reviews {
  import opened Wrappers
  import opened Seqs
  import opened JsText
  import opened JsNumber
  import Auth

  datatype Review = Review(
    id: string, productId: string, userId: string, userName: string,
    rating: int, title: string, comment: string, date: string,
    helpful: int, verified: bool)

  datatype ReviewError = NotLoggedIn | AlreadyReviewed

  /** A histogram cell: `undefined++` on a key outside 1..5 yields NaN. */
  datatype Tally = Count(n: nat) | NotANumber

  datatype Stats = Stats(totalReviews: nat, averageRating: real, ratingDistribution: map<int, Tally>)

  const EmptyDistribution: map<int, Tally> := map[1 := Count(0), 2 := Count(0), 3 := Count(0), 4 := Count(0), 5 := Count(0)]

  function ForProduct(productId: string): Review -> bool {
    (r: Review) => r.productId == productId
  }

  function ByAuthor(productId: string, userId: string): Review -> bool {
    (r: Review) => r.productId == productId && r.userId == userId
  }

  function WithId(id: string): Review -> bool {
    (r: Review) => r.id == id
  }

  /** `getProductReviews`: the reviews of one product, in stored order. */
  function ProductReviews(reviews: seq<Review>, productId: string): (r: seq<Review>)
    ensures forall i :: 0 <= i < |r| ==> r[i] in reviews && r[i].productId == productId
    ensures forall i :: 0 <= i < |reviews| && reviews[i].productId == productId ==> reviews[i] in r
    ensures SelectedAt(r, reviews, Positions(ForProduct(productId), reviews))
  {
    FilterAtPositions(ForProduct(productId), reviews);
    Filter(ForProduct(productId), reviews)
  }

  /** A review put in front of the store is in front of its product's list;
      the other products' lists do not change. */
  lemma ProductReviewsOfNew(x: Review, reviews: seq<Review>, productId: string)
    ensures ProductReviews([x] + reviews, productId) ==
      (if x.productId == productId then [x] else []) + ProductReviews(reviews, productId)
  {
    assert ([x] + reviews)[1..] == reviews;
  }

  function RatingSum(rs: seq<Review>): int {
    if rs == [] then 0 else RatingSum(rs[..|rs| - 1]) + rs[|rs| - 1].rating
  }

  /** `ratingDistribution[rating]++`. */
  function Bump(m: map<int, Tally>, rating: int): (r: map<int, Tally>)
    ensures r.Keys == m.Keys + {rating}
    ensures forall k :: k in m && k != rating ==> r[k] == m[k]
    ensures rating !in m ==> r[rating] == NotANumber
    ensures rating in m ==> r[rating] == if m[rating].Count? then Count(m[rating].n + 1) else NotANumber
  {
    if rating in m then
      m[rating := match m[rating] case Count(n) => Count(n + 1) case NotANumber => NotANumber]
    else m[rating := NotANumber]
  }

  /** The histogram the `forEach` of `getProductReviewStats` builds. */
  function Distribution(rs: seq<Review>): map<int, Tally> {
    if rs == [] then EmptyDistribution else Bump(Distribution(rs[..|rs| - 1]), rs[|rs| - 1].rating)
  }

  function CountRating(rs: seq<Review>, k: int): nat {
    if rs == [] then 0 else CountRating(rs[..|rs| - 1], k) + (if rs[|rs| - 1].rating == k then 1 else 0)
  }

  predicate RatingsInRange(rs: seq<Review>) {
    forall i :: 0 <= i < |rs| ==> 1 <= rs[i].rating <= 5
  }

  /** With ratings in 1..5 the histogram has exactly the keys 1..5 and bucket
      `k` counts the reviews rated `k`. */
  lemma {:induction false} DistributionCounts(rs: seq<Review>)
    requires RatingsInRange(rs)
    ensures Distribution(rs).Keys == {1, 2, 3, 4, 5}
    ensures forall k :: 1 <= k <= 5 ==> Distribution(rs)[k] == Count(CountRating(rs, k))
  {
    if rs != [] {
      var init := rs[..|rs| - 1];
      assert RatingsInRange(init) by {
        forall i | 0 <= i < |init| ensures 1 <= init[i].rating <= 5 {
          assert init[i] == rs[i];
        }
      }
      DistributionCounts(init);
      assert 1 <= rs[|rs| - 1].rating <= 5;
    }
  }

  lemma {:induction false} CountsAddUp(rs: seq<Review>)
    requires RatingsInRange(rs)
    ensures CountRating(rs, 1) + CountRating(rs, 2) + CountRating(rs, 3) + CountRating(rs, 4) + CountRating(rs, 5) == |rs|
  {
    if rs != [] {
      var init := rs[..|rs| - 1];
      assert RatingsInRange(init) by {
        forall i | 0 <= i < |init| ensures 1 <= init[i].rating <= 5 {
          assert init[i] == rs[i];
        }
      }
      CountsAddUp(init);
      assert 1 <= rs[|rs| - 1].rating <= 5;
    }
  }

  /** When every rating is in 1..5 the five buckets sum to the number of reviews. */
  lemma BucketsSumToTotal(rs: seq<Review>)
    requires RatingsInRange(rs)
    ensures Distribution(rs).Keys == {1, 2, 3, 4, 5}
    ensures forall k :: 1 <= k <= 5 ==> Distribution(rs)[k].Count?
    ensures Distribution(rs)[1].n + Distribution(rs)[2].n + Distribution(rs)[3].n
          + Distribution(rs)[4].n + Distribution(rs)[5].n == |rs|
  {
    DistributionCounts(rs);
    CountsAddUp(rs);
  }

  lemma {:induction false} RatingSumBounds(rs: seq<Review>)
    requires RatingsInRange(rs)
    ensures |rs| <= RatingSum(rs) <= 5 * |rs|
  {
    if rs != [] {
      var init := rs[..|rs| - 1];
      assert RatingsInRange(init) by {
        forall i | 0 <= i < |init| ensures 1 <= init[i].rating <= 5 {
          assert init[i] == rs[i];
        }
      }
      RatingSumBounds(init);
      assert 1 <= rs[|rs| - 1].rating <= 5;
    }
  }

  /** `Math.round(x * 10) / 10` over exact reals: the multiple of 0.1 nearest
      to `x`, halves rounding up. */
  function RoundTenth(x: real): (r: real)
    ensures r - 0.05 <= x < r + 0.05
    ensures (r * 10.0).Floor as real == r * 10.0
  {
    Round(x * 10.0) as real / 10.0
  }

  /** The exact mean rating of a non-empty list. */
  function Mean(rs: seq<Review>): real
    requires rs != []
  {
    RatingSum(rs) as real / |rs| as real
  }

  /** `getProductRating`: 0 without reviews, otherwise the mean to one decimal. */
  function ProductRating(reviews: seq<Review>, productId: string): (r: real)
    ensures ProductReviews(reviews, productId) == [] ==> r == 0.0
    ensures ProductReviews(reviews, productId) != [] ==>
      r - 0.05 <= Mean(ProductReviews(reviews, productId)) < r + 0.05
    ensures (r * 10.0).Floor as real == r * 10.0
  {
    var rs := ProductReviews(reviews, productId);
    if |rs| == 0 then 0.0 else RoundTenth(Mean(rs))
  }

  lemma MulPos(a: real, b: real)
    requires a > 0.0 && b > 0.0
    ensures a * b > 0.0
  {
  }

  lemma MulBelow(q: real, y: real, c: real)
    requires q < c && y > 0.0
    ensures q * y < c * y
  {
    MulPos(c - q, y);
    assert (c - q) * y == c * y - q * y;
  }

  lemma MeanBounds(sum: int, n: nat)
    requires 0 < n && n <= sum <= 5 * n
    ensures 1.0 <= sum as real / n as real <= 5.0
  {
    var x, y := sum as real, n as real;
    assert y <= x <= 5.0 * y;
    var q := x / y;
    assert q * y == x;
    if q < 1.0 {
      MulBelow(q, y, 1.0);
      assert false;
    }
    if q > 5.0 {
      MulBelow(5.0, y, q);
      assert false;
    }
  }

  lemma RoundTenthBounds(x: real)
    requires 1.0 <= x <= 5.0
    ensures 1.0 <= RoundTenth(x) <= 5.0
  {
    var m := Round(x * 10.0);
    assert 10 <= m <= 50;
  }

  /** With ratings in 1..5 a reviewed product's rating lies in 1..5. */
  lemma ProductRatingBounds(reviews: seq<Review>, productId: string)
    requires RatingsInRange(ProductReviews(reviews, productId))
    requires ProductReviews(reviews, productId) != []
    ensures 1.0 <= ProductRating(reviews, productId) <= 5.0
  {
    var rs := ProductReviews(reviews, productId);
    RatingSumBounds(rs);
    MeanBounds(RatingSum(rs), |rs|);
    assert 1.0 <= Mean(rs) <= 5.0;
    RoundTenthBounds(Mean(rs));
  }

  /** `formatRelativeTime`'s buckets; the numbers are what the message shows. */
  datatype RelativeTime = Today | Yesterday | DaysAgo(days: int) | WeeksAgo(weeks: int) | MonthsAgo(months: int) | YearsAgo(years: int)

  const DayMillis: int := 1000 * 60 * 60 * 24

  /** `Math.floor((now - date) / 86400000)`. */
  function DaysBetween(now: int, date: int): (d: int)
    ensures d * DayMillis <= now - date < (d + 1) * DayMillis
  {
    (now - date) / DayMillis
  }

  function Relative(d: int): (r: RelativeTime)
    ensures r == Today <==> d == 0
    ensures r == Yesterday <==> d == 1
    ensures r.DaysAgo? <==> d < 0 || 2 <= d <= 7
    ensures r.DaysAgo? ==> r.days == d
    ensures r.WeeksAgo? <==> 8 <= d <= 30
    ensures r.WeeksAgo? ==> 1 <= r.weeks <= 4 && 7 * r.weeks <= d < 7 * r.weeks + 7
    ensures r.MonthsAgo? <==> 31 <= d <= 365
    ensures r.MonthsAgo? ==> 1 <= r.months <= 12 && 30 * r.months <= d < 30 * r.months + 30
    ensures r.YearsAgo? <==> d > 365
    ensures r.YearsAgo? ==> r.years >= 1 && 365 * r.years <= d < 365 * r.years + 365
  {
    if d == 0 then Today
    else if d == 1 then Yesterday
    else if d <= 7 then DaysAgo(d)
    else if d <= 30 then WeeksAgo(d / 7)
    else if d <= 365 then MonthsAgo(d / 30)
    else YearsAgo(d / 365)
  }

  /** `formatRelativeTime` with the parsed date and the clock as milliseconds. */
  function FormatRelativeTime(date: int, now: int): RelativeTime {
    Relative(DaysBetween(now, date))
  }

  /** A date less than a day old shows as today, one a day old as yesterday. */
  lemma RecentDates(date: int, now: int)
    ensures 0 <= now - date < DayMillis ==> FormatRelativeTime(date, now) == Today
    ensures DayMillis <= now - date < 2 * DayMillis ==> FormatRelativeTime(date, now) == Yesterday
  {
  }

  datatype Star = Yellow | Gray

  function FullStars(rating: real): int {
    Floor(rating)
  }

  /** `rating % 1 >= 0.5`, with JavaScript's remainder taking the dividend's sign. */
  predicate HasHalfStar(rating: real) {
    rating - Trunc(rating) as real >= 0.5
  }

  function EmptyStars(rating: real): int {
    5 - FullStars(rating) - (if HasHalfStar(rating) then 1 else 0)
  }

  function Nonneg(n: int): nat {
    if n < 0 then 0 else n
  }

  /** The number of yellow stars `generateStarRating` emits is the full stars
      plus the half star; for a non-negative rating that is `Math.round(rating)`. */
  lemma YellowIsRounded(rating: real)
    requires rating >= 0.0
    ensures Nonneg(FullStars(rating)) + (if HasHalfStar(rating) then 1 else 0) == Round(rating)
  {
  }

  /** A rating in 0..5 never asks for a negative number of stars of either kind. */
  lemma StarCountsInRange(rating: real)
    requires 0.0 <= rating <= 5.0
    ensures 0 <= FullStars(rating) <= 5 && 0 <= EmptyStars(rating) <= 5
    ensures FullStars(rating) + (if HasHalfStar(rating) then 1 else 0) + EmptyStars(rating) == 5
  {
  }

  /** `generateStarRating` as its sequence of star colours (the HTML wrapper
      and the size class are presentation). */
  method GenerateStarRating(rating: real) returns (stars: seq<Star>)
    ensures |stars| == Nonneg(FullStars(rating)) + (if HasHalfStar(rating) then 1 else 0) + Nonneg(EmptyStars(rating))
    ensures forall i :: 0 <= i < |stars| ==>
      (stars[i] == Yellow <==> i < Nonneg(FullStars(rating)) + (if HasHalfStar(rating) then 1 else 0))
    ensures 0.0 <= rating <= 5.0 ==> |stars| == 5
  {
    var full := FullStars(rating);
    var half := HasHalfStar(rating);
    var empty := EmptyStars(rating);
    stars := [];
    var i := 0;
    while i < full
      invariant 0 <= i <= Nonneg(full)
      invariant |stars| == i && forall j :: 0 <= j < i ==> stars[j] == Yellow
    {
      stars := stars + [Yellow];
      i := i + 1;
    }
    if half {
      stars := stars + [Yellow];
    }
    var lit := |stars|;
    i := 0;
    while i < empty
      invariant 0 <= i <= Nonneg(empty)
      invariant |stars| == lit + i
      invariant forall j :: 0 <= j < lit ==> stars[j] == Yellow
      invariant forall j :: lit <= j < |stars| ==> stars[j] == Gray
    {
      stars := stars + [Gray];
      i := i + 1;
    }
    if 0.0 <= rating <= 5.0 {
      StarCountsInRange(rating);
    }
  }

  /** No user has two reviews of one product. */
  predicate OneReviewEach(rs: seq<Review>) {
    forall i, j :: 0 <= i < j < |rs| ==> !(rs[i].productId == rs[j].productId && rs[i].userId == rs[j].userId)
  }

  /** A review by an author with none for that product keeps the rule. */
  lemma PrependKeepsOneEach(x: Review, rs: seq<Review>)
    requires OneReviewEach(rs) && Find(ByAuthor(x.productId, x.userId), rs).None?
    ensures OneReviewEach([x] + rs)
  {
    var t := [x] + rs;
    forall i, j | 0 <= i < j < |t| ensures !(t[i].productId == t[j].productId && t[i].userId == t[j].userId) {
      if i == 0 {
        assert t[j] == rs[j - 1];
        assert !ByAuthor(x.productId, x.userId)(rs[j - 1]);
      } else {
        assert t[i] == rs[i - 1] && t[j] == rs[j - 1];
      }
    }
  }

  /** The record `addReview` builds. */
  function NewReview(user: Auth.Profile, productId: string, rating: real, title: string, comment: string,
                     now: int, today: string): (r: Review)
    ensures r.productId == productId && r.userId == user.id && r.helpful == 0
    ensures r.rating as real <= rating || rating < 0.0
    ensures |r.title| <= |title| && |r.comment| <= |comment|
    ensures r.id == "rev-" + IntToString(now) && r.userName == user.name && r.date == today && r.verified
    ensures r.rating == Trunc(rating) && r.title == Trim(title) && r.comment == Trim(comment)
  {
    Review("rev-" + IntToString(now), productId, user.id, user.name, Trunc(rating), Trim(title), Trim(comment), today, 0, true)
  }

  /** The stored reviews (`REVIEWS_DATA`), newest first. */
  class ReviewStore {
    var reviews: seq<Review>

    /** No user has two reviews of one product. */
    ghost predicate OnePerUserProduct()
      reads this
    {
      OneReviewEach(reviews)
    }

    constructor (initial: seq<Review>)
      ensures reviews == initial
    {
      reviews := initial;
    }

    function GetProductReviews(productId: string): (r: seq<Review>)
      reads this
      ensures forall i :: 0 <= i < |r| ==> r[i] in reviews && r[i].productId == productId
      ensures forall i :: 0 <= i < |reviews| && reviews[i].productId == productId ==> reviews[i] in r
      ensures SelectedAt(r, reviews, Positions(ForProduct(productId), reviews))
    {
      ProductReviews(reviews, productId)
    }

    /** `getProductReviewStats`: the count, the rounded mean and the histogram
        accumulated over the product's reviews. */
    method GetProductReviewStats(productId: string) returns (s: Stats)
      ensures var rs := ProductReviews(reviews, productId);
        && s.totalReviews == |rs|
        && s.averageRating == ProductRating(reviews, productId)
        && s.ratingDistribution == Distribution(rs)
      ensures ProductReviews(reviews, productId) == [] ==> s == Stats(0, 0.0, EmptyDistribution)
    {
      var rs := ProductReviews(reviews, productId);
      if |rs| == 0 {
        return Stats(0, 0.0, EmptyDistribution);
      }
      var dist := EmptyDistribution;
      var total := 0;
      var i := 0;
      while i < |rs|
        invariant 0 <= i <= |rs|
        invariant total == RatingSum(rs[..i]) && dist == Distribution(rs[..i])
      {
        assert rs[..i + 1][..i] == rs[..i];
        total := total + rs[i].rating;
        dist := Bump(dist, rs[i].rating);
        i := i + 1;
      }
      assert rs[..i] == rs;
      s := Stats(|rs|, RoundTenth(total as real / |rs| as real), dist);
    }

    /** `addReview`: a logged-in user who has not reviewed the product gets a
        new review in front of the store. */
    method AddReview(accounts: Auth.AccountStore, productId: string, rating: real, title: string, comment: string,
                     now: int, today: string) returns (r: Result<Review, ReviewError>)
      modifies this
      ensures accounts.CurrentUser().None? ==> r == Err(NotLoggedIn) && reviews == old(reviews)
      ensures accounts.CurrentUser().Some? ==>
        var user := accounts.CurrentUser().value;
        if Find(ByAuthor(productId, user.id), old(reviews)).Some? then
          r == Err(AlreadyReviewed) && reviews == old(reviews)
        else
          r == Ok(NewReview(user, productId, rating, title, comment, now, today))
          && reviews == [r.value] + old(reviews)
      ensures old(OnePerUserProduct()) ==> OnePerUserProduct()
    {
      var user := accounts.CurrentUser();
      if user.None? {
        return Err(NotLoggedIn);
      }
      var u := user.value;
      if Find(ByAuthor(productId, u.id), reviews).Some? {
        return Err(AlreadyReviewed);
      }
      var review := NewReview(u, productId, rating, title, comment, now, today);
      if OneReviewEach(reviews) {
        PrependKeepsOneEach(review, reviews);
      }
      reviews := [review] + reviews;
      r := Ok(review);
    }

    /** `markReviewHelpful`: one more vote on the first review with that id. */
    method MarkReviewHelpful(reviewId: string) returns (count: int)
      modifies this
      ensures FindIndex(WithId(reviewId), old(reviews)).None? ==> count == 0 && reviews == old(reviews)
      ensures FindIndex(WithId(reviewId), old(reviews)).Some? ==>
        var i := FindIndex(WithId(reviewId), old(reviews)).value;
        count == old(reviews)[i].helpful + 1 && reviews == old(reviews)[i := old(reviews)[i].(helpful := count)]
      ensures old(OnePerUserProduct()) ==> OnePerUserProduct()
    {
      var idx := FindIndex(WithId(reviewId), reviews);
      if idx.None? {
        return 0;
      }
      var i := idx.value;
      count := reviews[i].helpful + 1;
      reviews := reviews[i := reviews[i].(helpful := count)];
    }
  }
}
