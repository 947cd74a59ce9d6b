/** The static dataset the dashboard displays (`LATEST_IAEA_DATA`,
    `NEGOTIATIONS_DATA`, `OFFICIAL_STATEMENTS`). A facility keeps the fields
    the modelled derivations read, plus its name and last inspection date,
    which only the detail cards display (Dashboard.py:650, :654). */
module Dataset {
  import opened Wrappers

  datatype Coordinates = Coordinates(lat: real, lon: real)

  /** A facility record. Keys the source reads with `.get` are optional. */
  datatype Facility = Facility(
    name: string,
    status: string,
    enrichmentLevels: Option<seq<string>>,
    iaeaAccess: Option<string>,
    lastInspection: Option<string>,
    coordinates: Option<Coordinates>)

  const Isfahan: Facility := Facility(
    "Complexe nucléaire d'Ispahan (ENTC)",
    "Actif - Stockage d'uranium hautement enrichi",
    Some(["20%", "60%"]),
    Some("Non autorisé depuis juin 2025"),
    Some("2025-06-10"),
    Some(Coordinates(32.65, 51.68)))

  const Natanz: Facility := Facility(
    "Site d'enrichissement de Natanz",
    "Activité observée sans vérification possible [citation:2]",
    Some(["Jusqu'à 60%"]),
    Some("Non autorisé"),
    Some("2025-06-09"),
    Some(Coordinates(33.72, 51.72)))

  const Fordow: Facility := Facility(
    "Site de Fordow (souterrain)",
    "Activité observée sans vérification [citation:2]",
    Some(["Jusqu'à 60%"]),
    Some("Non autorisé"),
    Some("2025-06-08"),
    Some(Coordinates(34.88, 50.99)))

  const Arak: Facility := Facility(
    "Réacteur à eau lourde d'Arak",
    "Fonctionnement limité",
    Some(["Non enrichi"]),
    Some("Partiel"),
    Some("2025-12-15"),
    Some(Coordinates(34.37, 49.24)))

  const Bushehr: Facility := Facility(
    "Centrale nucléaire de Bushehr",
    "Opérationnel - Production électrique",
    Some(["Non enrichi"]),
    Some("Autorisé"),
    Some("2026-01-20"),
    Some(Coordinates(28.83, 50.89)))

  /** The `facilities` dictionary, in insertion order. */
  const Facilities: seq<(string, Facility)> := [
    ("Isfahan", Isfahan), ("Natanz", Natanz), ("Fordow", Fordow),
    ("Arak", Arak), ("Bushehr", Bushehr)]

  /** Kilograms of 60 % uranium reported (`uranium_60_percent`). */
  const Uranium60Percent: real := 440.9
  /** Total enriched uranium in kilograms (`uranium_total`). */
  const UraniumTotal: real := 9247.6
  /** The headline count of potential weapons (`weapons_potential`). */
  const WeaponsPotential: int := 10

  /** The `significant_quantity` entry of the `thresholds` record: kilograms
      of 60 % uranium per weapon. */
  const SignificantQuantityThreshold: real := 42.0

  datatype TimelineEvent = TimelineEvent(date: string, event: string, eventType: string)

  const TimelineEvents: seq<TimelineEvent> := [
    TimelineEvent("2015-07-14", "Signature du JCPOA", "accord"),
    TimelineEvent("2018-05-08", "Retrait des États-Unis du JCPOA", "crise"),
    TimelineEvent("2019-07-01", "Dépassement du seuil d'enrichissement 3.67%", "escalade"),
    TimelineEvent("2021-04-01", "Début enrichissement à 60%", "escalade"),
    TimelineEvent("2023-09-01", "Stock dépasse 4,500 kg d'uranium enrichi", "seuil"),
    TimelineEvent("2025-06-01", "Iran déclare 4ème installation à Ispahan", "nouvelle"),
    TimelineEvent("2025-06-15", "Frappes israéliennes sur sites nucléaires", "attaque"),
    TimelineEvent("2025-06-20", "États-Unis rejoignent les frappes - Guerre de 12 jours", "attaque"),
    TimelineEvent("2025-06-25", "Fin des frappes - Destruction partielle des sites", "attaque"),
    TimelineEvent("2025-07-01", "Iran suspend coopération avec AIEA", "crise"),
    TimelineEvent("2026-02-27", "Rapport AIEA - 440.9 kg à 60% non vérifiables", "rapport")]

  datatype Negotiation = Negotiation(date: string, location: string, parties: seq<string>, outcome: string)

  const Negotiations: seq<Negotiation> := [
    Negotiation("2026-02-26", "Genève", ["États-Unis", "Iran", "Oman"], "Aucune percée [citation:4]"),
    Negotiation("2026-02-19", "Genève", ["États-Unis", "Iran", "Oman"], "Discussions techniques"),
    Negotiation("2026-02-12", "Genève", ["États-Unis", "Iran", "Oman"], "Premier round indirect"),
    Negotiation("2026-02-27", "Washington", ["États-Unis", "Oman"], "Rencontre Vance-Busaidi [citation:2]"),
    Negotiation("2026-03-02", "Vienne", ["Iran", "AIEA"], "Réunion programmée [citation:2]")]

  datatype Statement = Statement(date: string, source: string, text: string)

  const OfficialStatements: seq<Statement> := [
    Statement("2026-02-27", "IAEA", "L'AIEA ne peut vérifier si l'Iran a suspendu toutes les activités d'enrichissement [citation:2]"),
    Statement("2026-02-27", "Vice-président JD Vance", "Preuves que l'Iran tente de reconstruire son programme d'armes nucléaires [citation:2]"),
    Statement("2026-02-27", "Oman FM Badr al Busaidi", "L'Iran a accepté de diluer son uranium enrichi au niveau le plus bas possible [citation:2]"),
    Statement("2026-02-25", "Marco Rubio", "L'Iran n'enrichit pas actuellement mais cherche à pouvoir le faire [citation:2]"),
    Statement("2026-02-23", "Abbas Araghchi", "Les armes nucléaires sont inacceptables pour l'Iran [citation:5]")]
}
