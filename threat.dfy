/** `get_threat_level`: the four-band classification of an enrichment
    percentage shown in the header badge. */
module Threat {

  const Critique: string := "CRITIQUE"
  const Eleve: string := "ÉLEVÉ"
  const Modere: string := "MODÉRÉ"
  const Faible: string := "FAIBLE"

  /** `get_threat_level(percentage)`: a label and its coloured-disc icon.
      Each band is closed at its lower bound and open at its upper one. */
  function GetThreatLevel(percentage: real): (r: (string, string))
    ensures r.0 == Critique <==> percentage >= 90.0
    ensures r.0 == Eleve <==> 60.0 <= percentage < 90.0
    ensures r.0 == Modere <==> 20.0 <= percentage < 60.0
    ensures r.0 == Faible <==> percentage < 20.0
    ensures r.0 == Critique ==> r.1 == "🔴"
    ensures r.0 == Eleve ==> r.1 == "🟠"
    ensures r.0 == Modere ==> r.1 == "🟡"
    ensures r.0 == Faible ==> r.1 == "🟢"
  {
    if percentage >= 90.0 then (Critique, "🔴")
    else if percentage >= 60.0 then (Eleve, "🟠")
    else if percentage >= 20.0 then (Modere, "🟡")
    else (Faible, "🟢")
  }

  /** The position of a label on the severity scale, FAIBLE lowest. */
  function Severity(level: string): (s: nat)
    ensures s <= 3
    ensures s == 3 <==> level == Critique
  {
    if level == Critique then 3
    else if level == Eleve then 2
    else if level == Modere then 1
    else 0
  }

  /** A higher percentage never yields a less severe label. */
  lemma SeverityMonotone(p: real, q: real)
    requires p <= q
    ensures Severity(GetThreatLevel(p).0) <= Severity(GetThreatLevel(q).0)
  {
  }

  /** The labels are four distinct rungs: the severity determines the label. */
  lemma SeverityDeterminesLabel(p: real, q: real)
    ensures Severity(GetThreatLevel(p).0) == Severity(GetThreatLevel(q).0)
        <==> GetThreatLevel(p) == GetThreatLevel(q)
  {
  }

  /** The header badge calls `get_threat_level(60)`: the lower edge of the
      ÉLEVÉ band. */
  lemma HeaderBadge()
    ensures GetThreatLevel(60.0) == (Eleve, "🟠")
    ensures GetThreatLevel(59.99) == (Modere, "🟡")
  {
  }
}
