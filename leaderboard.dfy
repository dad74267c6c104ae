/**
 * The leaderboard page, Leaderboard.jsx: rank medals, the emphasis of the top
 * three, the highlight of the signed-in user's own row, and the masked address.
 */
module Leaderboard {
  import opened Optional
  import opened Entities
  import Plans
  import EmailMask

  datatype RankIcon = Trophy | SilverMedal | BronzeMedal | NoIcon

  /** getRankIcon: only ranks 1, 2 and 3 carry a medal. */
  function GetRankIcon(rank: int): (icon: RankIcon)
    ensures icon == Trophy <==> rank == 1
    ensures icon == SilverMedal <==> rank == 2
    ensures icon == BronzeMedal <==> rank == 3
    ensures icon == NoIcon <==> rank != 1 && rank != 2 && rank != 3
  {
    if rank == 1 then Trophy
    else if rank == 2 then SilverMedal
    else if rank == 3 then BronzeMedal
    else NoIcon
  }

  /** Bold and larger text: `leader.rank <= 3`. */
  predicate Emphasised(rank: int) {
    rank <= 3
  }

  /** Every medalled row is emphasised; among positive ranks the two coincide, and a rank of 0 or below is emphasised without a medal. */
  lemma MedalsAreEmphasised(rank: int)
    ensures GetRankIcon(rank) != NoIcon ==> Emphasised(rank)
    ensures rank >= 1 ==> (Emphasised(rank) <==> GetRankIcon(rank) != NoIcon)
    ensures rank <= 0 ==> Emphasised(rank) && GetRankIcon(rank) == NoIcon
  {
  }

  /** A leader row as the server returns it. */
  datatype Leader = Leader(dbId: Option<string>, name: Option<string>, email: string, plan: Option<string>, rank: int, points: int)

  /** Line 110: `leader._id === user?.id`; two absent ids compare equal. */
  predicate Highlighted(leader: Leader, user: Option<User>) {
    leader.dbId == (if user.Some? then user.value.id else None)
  }

  /** With an id on both sides, a row is highlighted exactly when it is the user's. */
  lemma HighlightMeaning(leader: Leader, user: Option<User>)
    requires leader.dbId.Some?
    ensures Highlighted(leader, user) <==> user.Some? && user.value.id == leader.dbId
  {
  }

  /** The user's own rank is requested only for a truthy `user.id`. */
  predicate FetchesOwnRank(user: Option<User>) {
    user.Some? && Truthy(user.value.id)
  }

  /** The cells derived from a leader: medal, emphasis, badge colour, masked address. */
  datatype Row = Row(icon: RankIcon, bold: bool, color: string, email: string, highlighted: bool)

  function RowOf(leader: Leader, user: Option<User>): (r: Row)
    ensures r.icon != NoIcon ==> r.bold
    ensures r.color == Plans.PlanColor(leader.plan)
    ensures r.email == EmailMask.Mask(leader.email)
    ensures r.highlighted == Highlighted(leader, user)
  {
    Row(GetRankIcon(leader.rank), Emphasised(leader.rank), Plans.PlanColor(leader.plan),
        EmailMask.Mask(leader.email), Highlighted(leader, user))
  }
}
