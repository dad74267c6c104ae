/**
 * The plan badge colours. Questions.jsx and Leaderboard.jsx each define the same
 * `getPlanColor` table; it is defined once here.
 */
module Plans {
  import opened Optional

  const FreeColor: string := "#94a3b8"

  const Colors: map<string, string> :=
    map["FREE" := "#94a3b8", "BRONZE" := "#cd7f32", "SILVER" := "#c0c0c0", "GOLD" := "#ffd700"]

  /** `colors[plan] || '#94a3b8'`: every named plan has its colour, anything else gets FREE's. */
  function PlanColor(plan: Option<string>): (c: string)
    ensures plan == Some("FREE") ==> c == "#94a3b8"
    ensures plan == Some("BRONZE") ==> c == "#cd7f32"
    ensures plan == Some("SILVER") ==> c == "#c0c0c0"
    ensures plan == Some("GOLD") ==> c == "#ffd700"
    ensures plan.None? || plan.value !in Colors ==> c == FreeColor
  {
    if plan.Some? && plan.value in Colors && Colors[plan.value] != "" then Colors[plan.value] else FreeColor
  }

  /** An unknown or missing plan is drawn exactly like FREE. */
  lemma UnknownPlanLooksFree(plan: Option<string>)
    requires plan.None? || plan.value !in Colors
    ensures PlanColor(plan) == PlanColor(Some("FREE"))
  {
  }
}
