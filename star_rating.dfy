/** The star row: `Math.floor(rating)` filled stars, `maxStars` minus that
    many empty ones (no half stars), and the review count in parentheses
    whenever one is given. */
module StarRating {
  import opened Types

  const DefaultMaxStars: int := 5

  /** How many elements `Array.from({ length: n })` yields for an integral
      `n`: a negative length counts as 0. */
  function IconCount(n: int): (c: nat)
    ensures n >= 0 ==> c == n
    ensures n < 0 ==> c == 0
  {
    if n < 0 then 0 else n
  }

  datatype StarsView = StarsView(filled: nat, empty: nat, reviewCount: Option<int>)

  /** The rendered row for a `rating`, an optional `reviewCount` and a
      `maxStars` prop. */
  function Render(rating: real, reviewCount: Option<int>, maxStars: int := DefaultMaxStars): (v: StarsView)
    ensures v.reviewCount == reviewCount
  {
    var fullStars := rating.Floor;
    var emptyStars := maxStars - fullStars;
    StarsView(IconCount(fullStars), IconCount(emptyStars), reviewCount)
  }

  /** For a rating between 0 and `maxStars`, the filled stars are the rating
      rounded down and the row always has exactly `maxStars` icons. */
  lemma {:induction false} RatingInRange(rating: real, reviewCount: Option<int>, maxStars: int)
    requires 0.0 <= rating <= maxStars as real
    ensures var v := Render(rating, reviewCount, maxStars);
      && v.filled as real <= rating < v.filled as real + 1.0
      && v.filled + v.empty == maxStars
  {
    assert rating.Floor <= maxStars;
  }

  /** Outside that range the row is not `maxStars` long: a rating above the
      maximum shows more filled stars than the maximum and no empty one; a
      negative rating shows no filled star and more empty ones than the
      maximum. */
  lemma {:induction false} RatingOutOfRange(rating: real, reviewCount: Option<int>, maxStars: int)
    requires maxStars >= 0
    ensures var v := Render(rating, reviewCount, maxStars);
      && (rating >= maxStars as real + 1.0 ==> v.empty == 0 && v.filled > maxStars)
      && (rating < 0.0 ==> v.filled == 0 && v.empty > maxStars)
  {
  }

  /** The default row has five stars, and a count of 0 is still shown. */
  lemma {:induction false} DefaultRow(rating: real)
    requires 0.0 <= rating <= 5.0
    ensures Render(rating, Some(0)).filled + Render(rating, Some(0)).empty == 5
    ensures Render(rating, Some(0)).reviewCount == Some(0)
    ensures Render(rating, None).reviewCount == None
  {
    RatingInRange(rating, Some(0), 5);
  }
}
