/**
 * `ratingToLabel` of the two rating pages: the five-tier ladder of
 * rate-your-synopsis (the live page; /rate-my-plot redirects to it) and the
 * six-tier ladder of rate-my-plot, which adds "Average" for [2.0, 3.0).
 * Ratings are read as exact reals.
 */
module RatingLabels {

  /** The tiers, lowest first. */
  datatype Tier = NeedsWork | Average | Decent | Good | VeryGood | BestSeller

  function Rank(t: Tier): nat {
    match t
    case NeedsWork => 0
    case Average => 1
    case Decent => 2
    case Good => 3
    case VeryGood => 4
    case BestSeller => 5
  }

  /** The text each page shows for a tier. */
  function Label(t: Tier): (s: string)
    ensures s != ""
  {
    match t
    case NeedsWork => "Needs work"
    case Average => "Average"
    case Decent => "Decent"
    case Good => "Good"
    case VeryGood => "Very Good"
    case BestSeller => "Best Seller"
  }

  /** The five-tier ladder (rate-your-synopsis), as the interval each tier covers. */
  function SynopsisTier(rating: real): (t: Tier)
    ensures t == BestSeller <==> rating > 4.5
    ensures t == VeryGood <==> 4.0 <= rating <= 4.5
    ensures t == Good <==> 3.5 <= rating < 4.0
    ensures t == Decent <==> 3.0 <= rating < 3.5
    ensures t == NeedsWork <==> rating < 3.0
    ensures t != Average
  {
    if rating > 4.5 then BestSeller
    else if rating >= 4.0 then VeryGood
    else if rating >= 3.5 then Good
    else if rating >= 3.0 then Decent
    else NeedsWork
  }

  /** The six-tier ladder (rate-my-plot). */
  function PlotTier(rating: real): (t: Tier)
    ensures t == BestSeller <==> rating > 4.5
    ensures t == VeryGood <==> 4.0 <= rating <= 4.5
    ensures t == Good <==> 3.5 <= rating < 4.0
    ensures t == Decent <==> 3.0 <= rating < 3.5
    ensures t == Average <==> 2.0 <= rating < 3.0
    ensures t == NeedsWork <==> rating < 2.0
  {
    if rating > 4.5 then BestSeller
    else if rating >= 4.0 then VeryGood
    else if rating >= 3.5 then Good
    else if rating >= 3.0 then Decent
    else if rating >= 2.0 then Average
    else NeedsWork
  }

  /** `ratingToLabel` of rate-your-synopsis. */
  function SynopsisLabel(rating: real): string {
    Label(SynopsisTier(rating))
  }

  /** `ratingToLabel` of rate-my-plot. */
  function PlotLabel(rating: real): string {
    Label(PlotTier(rating))
  }

  /** Distinct tiers show distinct labels, so the labels order as the tiers do. */
  lemma LabelInjective(s: Tier, t: Tier)
    requires Label(s) == Label(t)
    ensures s == t
  {
  }

  /** A higher rating never gets a lower five-tier label. */
  lemma SynopsisMonotone(x: real, y: real)
    requires x <= y
    ensures Rank(SynopsisTier(x)) <= Rank(SynopsisTier(y))
  {
  }

  /** A higher rating never gets a lower six-tier label. */
  lemma PlotMonotone(x: real, y: real)
    requires x <= y
    ensures Rank(PlotTier(x)) <= Rank(PlotTier(y))
  {
  }

  /** The two ladders agree except on [2.0, 3.0), where the six-tier ladder
      says "Average" and the five-tier one "Needs work". */
  lemma LaddersAgree(rating: real)
    ensures !(2.0 <= rating < 3.0) ==> PlotLabel(rating) == SynopsisLabel(rating)
    ensures 2.0 <= rating < 3.0 ==> PlotLabel(rating) == "Average" && SynopsisLabel(rating) == "Needs work"
  {
  }

  /** The six-tier ladder never rates lower than the five-tier one. */
  lemma PlotNeverBelowSynopsis(rating: real)
    ensures Rank(SynopsisTier(rating)) <= Rank(PlotTier(rating)) <= Rank(SynopsisTier(rating)) + 1
  {
  }
}
