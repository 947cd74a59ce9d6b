/** The colour rules of the dashboard: IAEA access status of a facility,
    timeline event type, negotiation outcome and statement source. Each is
    a chain of substring tests or a dictionary lookup with a default. */
module Colors {
  import opened Text

  const Red: string := "#DA0000"
  const Orange: string := "#FFA500"
  const Green: string := "#239F40"
  const Blue: string := "#2196f3"
  const Grey: string := "#666666"

  /** The red test of `get_facility_status_color`: "non autorisé" anywhere
      in the lower-cased text, or "Non" with that exact capitalisation. */
  predicate AccessDenied(status: string) {
    Contains(Lower(status), "non autorisé") || Contains(status, "Non")
  }

  /** `get_facility_status_color(status)`. */
  function FacilityStatusColor(status: string): (r: string)
    ensures r == Red || r == Orange || r == Green
    ensures r == Red <==> AccessDenied(status)
    ensures r == Orange <==> !AccessDenied(status) && Contains(Lower(status), "partiel")
    ensures r == Green <==> !AccessDenied(status) && !Contains(Lower(status), "partiel")
  {
    if Contains(Lower(status), "non autorisé") || Contains(status, "Non") then Red
    else if Contains(Lower(status), "partiel") then Orange
    else Green
  }

  /** The colour of each timeline event type (`colors` in the timeline). */
  const TimelineColors: map<string, string> := map[
    "accord" := Green, "crise" := Orange, "escalade" := Red,
    "attaque" := Red, "seuil" := Orange, "nouvelle" := Blue, "rapport" := Blue]

  /** `colors.get(type, '#666666')`: read backwards, the table says which
      types get which colour, and grey is reserved for types outside it. */
  function TimelineColor(eventType: string): (r: string)
    ensures r == Red <==> eventType == "escalade" || eventType == "attaque"
    ensures r == Orange <==> eventType == "crise" || eventType == "seuil"
    ensures r == Blue <==> eventType == "nouvelle" || eventType == "rapport"
    ensures r == Green <==> eventType == "accord"
    ensures r == Grey <==> eventType !in TimelineColors
  {
    if eventType in TimelineColors then TimelineColors[eventType] else Grey
  }

  /** The border colour of a negotiation round, from its outcome text. */
  function OutcomeColor(outcome: string): (r: string)
    ensures r == Green <==> Contains(outcome, "programmée") || Contains(outcome, "techniques")
    ensures r == Orange <==> !Contains(outcome, "programmée") && !Contains(outcome, "techniques")
                             && Contains(outcome, "Aucune")
    ensures r == Grey <==> !Contains(outcome, "programmée") && !Contains(outcome, "techniques")
                           && !Contains(outcome, "Aucune")
  {
    if Contains(outcome, "programmée") || Contains(outcome, "techniques") then Green
    else if Contains(outcome, "Aucune") then Orange
    else Grey
  }

  /** The border colour of an official statement, from its source. */
  function SourceColor(source: string): (r: string)
    ensures r == Blue <==> Contains(source, "IAEA")
    ensures r == Red <==> !Contains(source, "IAEA")
                          && (Contains(source, "Rubio") || Contains(source, "Vance"))
    ensures r == Green <==> !Contains(source, "IAEA") && !Contains(source, "Rubio")
                            && !Contains(source, "Vance") && Contains(source, "Araghchi")
    ensures r == Orange <==> !Contains(source, "IAEA") && !Contains(source, "Rubio")
                             && !Contains(source, "Vance") && !Contains(source, "Araghchi")
  {
    if Contains(source, "IAEA") then Blue
    else if Contains(source, "Rubio") || Contains(source, "Vance") then Red
    else if Contains(source, "Araghchi") then Green
    else Orange
  }
}
