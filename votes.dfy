/**
 * The four smiley categories and the two tables that connect them to the
 * numeric rating stored with each feedback record: the total step function
 * `mapRatingToVoteType` of the satisfaction component and the fixed
 * `mapVoteToRating` table the page uses when it saves a vote.
 */
module Votes {
  /** `VoteType` of the source: the keys of the session counter. */
  datatype VoteType = Excellent | Bien | Moyen | Insuffisant

  /** Display order of the categories (report lines, matrix rows). */
  const AllVoteTypes: seq<VoteType> := [Excellent, Bien, Moyen, Insuffisant]

  /** Every category appears in the display order. */
  lemma AllVoteTypesComplete()
    ensures forall t: VoteType :: t in AllVoteTypes
  {
    forall t: VoteType
      ensures t in AllVoteTypes
    {
      match t
      case Excellent => assert AllVoteTypes[0] == t;
      case Bien => assert AllVoteTypes[1] == t;
      case Moyen => assert AllVoteTypes[2] == t;
      case Insuffisant => assert AllVoteTypes[3] == t;
    }
  }

  /** Satisfaction order of the categories, lowest first. */
  function Rank(t: VoteType): nat
  {
    match t
    case Insuffisant => 0
    case Moyen => 1
    case Bien => 2
    case Excellent => 3
  }

  /** Category of a stored rating; total over all integers. */
  function MapRatingToVoteType(r: int): (t: VoteType)
    ensures t == Excellent <==> r >= 5
    ensures t == Bien <==> r == 4
    ensures t == Moyen <==> r == 3
    ensures t == Insuffisant <==> r <= 2
  {
    if r >= 5 then Excellent
    else if r == 4 then Bien
    else if r == 3 then Moyen
    else Insuffisant
  }

  /** The rating the page stores for a vote of category `t`. */
  function MapVoteToRating(t: VoteType): (r: int)
    ensures 2 <= r <= 5
    ensures MapRatingToVoteType(r) == t
  {
    match t
    case Excellent => 5
    case Bien => 4
    case Moyen => 3
    case Insuffisant => 2
  }

  /** The rank of a rating's category is the rating clamped to 2..5, shifted down by 2. */
  lemma RankIsClampedRating(r: int)
    ensures Rank(MapRatingToVoteType(r)) == if r <= 2 then 0 else if r >= 5 then 3 else r - 2
  {
  }

  /** A higher rating never gives a less satisfied category. */
  lemma MapRatingMonotone(r1: int, r2: int)
    requires r1 <= r2
    ensures Rank(MapRatingToVoteType(r1)) <= Rank(MapRatingToVoteType(r2))
  {
    RankIsClampedRating(r1);
    RankIsClampedRating(r2);
  }

  /** On the ratings the page emits, the two tables are inverse to each other; rating 1 is not. */
  lemma RatingRoundTrip(r: int)
    ensures 2 <= r <= 5 ==> MapVoteToRating(MapRatingToVoteType(r)) == r
    ensures r < 2 ==> MapVoteToRating(MapRatingToVoteType(r)) == 2
  {
  }

  /** Distinct categories are stored as distinct ratings. */
  lemma MapVoteToRatingInjective(t: VoteType, u: VoteType)
    ensures MapVoteToRating(t) == MapVoteToRating(u) ==> t == u
  {
  }
}
