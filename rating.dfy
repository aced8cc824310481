/**
 * The star row of components/ui/Rating.tsx: which of the `maxRating` stars
 * are drawn full, half or empty for a rating, and when the review count is
 * shown.
 *
 * Ratings are exact reals, not IEEE doubles.
 */
module Rating {
  import opened Wrappers

  const DEFAULT_MAX_RATING: int := 5

  datatype Star = Full | Half | Outline

  /** `Math.floor(rating)`. */
  function FullStars(rating: real): int {
    rating.Floor
  }

  /** JavaScript's `rating % 1`: the fractional part with the sign of the
      rating, so it is never positive for a negative rating. */
  function JsFraction(rating: real): (f: real)
    ensures rating >= 0.0 ==> 0.0 <= f < 1.0 && f == rating - rating.Floor as real
    ensures rating < 0.0 ==> -1.0 < f <= 0.0
  {
    if rating >= 0.0 then rating - rating.Floor as real
    else rating + (-rating).Floor as real
  }

  predicate HasHalfStar(rating: real) {
    JsFraction(rating) >= 0.5
  }

  /** The star at position i: full below the whole part of the rating, half
      right at it when the fraction reaches one half, empty otherwise. */
  function StarAt(i: int, rating: real): Star {
    if i < FullStars(rating) then Full
    else if i == FullStars(rating) && HasHalfStar(rating) then Half
    else Outline
  }

  /** The row of stars `renderStars` builds, one per position below maxRating. */
  function Stars(rating: real, maxRating: int): seq<Star> {
    if maxRating <= 0 then [] else seq(maxRating, i => StarAt(i, rating))
  }

  /** `renderStars`: the loop over the positions, pushing one star each. */
  method RenderStars(rating: real, maxRating: int) returns (stars: seq<Star>)
    ensures |stars| == if maxRating > 0 then maxRating else 0
    ensures forall i :: 0 <= i < |stars| ==> stars[i] == StarAt(i, rating)
    ensures stars == Stars(rating, maxRating)
  {
    var fullStars := rating.Floor;
    var hasHalfStar := JsFraction(rating) >= 0.5;
    stars := [];
    var i := 0;
    while i < maxRating
      invariant 0 <= i && (maxRating > 0 ==> i <= maxRating) && (maxRating <= 0 ==> i == 0)
      invariant |stars| == i
      invariant forall k :: 0 <= k < i ==> stars[k] == StarAt(k, rating)
    {
      if i < fullStars {
        stars := stars + [Full];
      } else if i == fullStars && hasHalfStar {
        stars := stars + [Half];
      } else {
        stars := stars + [Outline];
      }
      i := i + 1;
    }
  }

  /** How many stars of a kind a row holds. */
  function CountOf(s: seq<Star>, kind: Star): nat {
    if s == [] then 0 else CountOf(s[..|s| - 1], kind) + (if s[|s| - 1] == kind then 1 else 0)
  }

  function Min(a: int, b: int): int {
    if a <= b then a else b
  }

  lemma {:induction false} FullCountPrefix(rating: real, n: nat)
    requires rating >= 0.0
    ensures CountOf(seq(n, i => StarAt(i, rating)), Full) == Min(FullStars(rating), n)
  {
    if n > 0 {
      var s := seq(n, i => StarAt(i, rating));
      assert s[..n - 1] == seq(n - 1, i => StarAt(i, rating));
      FullCountPrefix(rating, n - 1);
    }
  }

  /** For a non-negative rating the number of full stars is the whole part
      of the rating, capped at maxRating. */
  lemma FullStarCount(rating: real, maxRating: int)
    requires rating >= 0.0 && maxRating >= 0
    ensures CountOf(Stars(rating, maxRating), Full) == Min(rating.Floor, maxRating)
  {
    FullCountPrefix(rating, maxRating);
  }

  lemma {:induction false} HalfCountPrefix(rating: real, n: nat)
    ensures CountOf(seq(n, i => StarAt(i, rating)), Half)
      == (if HasHalfStar(rating) && 0 <= FullStars(rating) < n then 1 else 0)
  {
    if n > 0 {
      var s := seq(n, i => StarAt(i, rating));
      assert s[..n - 1] == seq(n - 1, i => StarAt(i, rating));
      HalfCountPrefix(rating, n - 1);
    }
  }

  /** At most one half star appears; it appears exactly when the fraction
      reaches one half and the whole part is a position of the row, and then
      it sits at that position. */
  lemma AtMostOneHalfStar(rating: real, maxRating: int)
    ensures var s := Stars(rating, maxRating);
      CountOf(s, Half) == (if HasHalfStar(rating) && 0 <= rating.Floor < maxRating then 1 else 0)
      && forall i :: 0 <= i < |s| && s[i] == Half ==> i == rating.Floor
  {
    if maxRating > 0 {
      HalfCountPrefix(rating, maxRating);
    }
  }

  function Rank(s: Star): int {
    match s
    case Full => 0
    case Half => 1
    case Outline => 2
  }

  /** The row reads full stars, then at most one half star, then empty ones. */
  lemma StarsOrdered(rating: real, maxRating: int)
    ensures var s := Stars(rating, maxRating);
      forall i, j :: 0 <= i < j < |s| ==> Rank(s[i]) <= Rank(s[j])
  {
  }

  /** A rating at or above the maximum fills every star. */
  lemma AllFullAtMaximum(rating: real, maxRating: int)
    requires maxRating >= 0 && rating >= maxRating as real
    ensures Stars(rating, maxRating) == seq(maxRating, i => Full)
  {
  }

  /** 4.5 out of 5 gives four full stars and a half. */
  lemma FourAndAHalf()
    ensures Stars(4.5, DEFAULT_MAX_RATING) == [Full, Full, Full, Full, Half]
  {
    assert (4.5).Floor == 4;
    assert JsFraction(4.5) == 0.5;
  }

  /** A negative rating draws no full and no half star. */
  lemma NegativeRatingAllOutline(rating: real, maxRating: int)
    requires rating < 0.0 && maxRating >= 0
    ensures Stars(rating, maxRating) == seq(maxRating, i => Outline)
  {
  }

  /** The review count is shown only when asked for and positive; an absent
      count reads as 0. */
  function ShowCount(showCount: bool, reviewCount: Option<int>): (shown: bool)
    ensures shown <==> showCount && reviewCount.Some? && reviewCount.value > 0
  {
    showCount && reviewCount.GetOr(0) > 0
  }
}
