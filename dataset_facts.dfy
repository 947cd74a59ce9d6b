/** What the dashboard shows for the embedded dataset, derived from the
    rules: every site's colours, the timeline, negotiation and statement
    colours, and the weapon-equivalent figures. */
module DatasetFacts {
  import opened Wrappers
  import opened Text
  import opened Colors
  import opened Dataset
  import opened Uranium
  import opened Sites
  import opened ColorFacts
  import Threat

  /** The detail-card colours of the five facilities. */
  lemma DeniedFacilities()
    ensures FacilityCardColor(Isfahan) == Red
    ensures FacilityCardColor(Natanz) == Red
    ensures FacilityCardColor(Fordow) == Red
  {
    ContainsAt("Non autorisé depuis juin 2025", "Non", 0);
    ContainsAt("Non autorisé", "Non", 0);
  }

  lemma PartialFacility()
    ensures FacilityCardColor(Arak) == Orange
  {
    assert Lower("Partiel") == "partiel";
    assert Avoids("partiel", "n");
    assert Avoids("Partiel", "N");
    AbsentChar("partiel", "non autorisé", 0, "n");
    AbsentChar("Partiel", "Non", 0, "N");
    ContainsAt("partiel", "partiel", 0);
  }

  lemma GrantedFacility()
    ensures FacilityCardColor(Bushehr) == Green
  {
    assert Lower("Autorisé") == "autorisé";
    assert Avoids("autorisé", "np");
    assert Avoids("Autorisé", "N");
    AbsentChar("autorisé", "non autorisé", 0, "np");
    AbsentChar("Autorisé", "Non", 0, "N");
    AbsentChar("autorisé", "partiel", 0, "np");
  }

  /** Threat labels of the sites: every site whose levels mention 60 %,
      "Jusqu'à 60%" included, is CRITIQUE; the unenriched ones are MODÉRÉ. */
  lemma IsfahanIsCritical()
    ensures SiteThreat(Isfahan) == Threat.Critique
  {
    var levels := Isfahan.enrichmentLevels.value;
    ContainsAt(levels[1], "60%", 0);
  }

  lemma NatanzIsCritical()
    ensures SiteThreat(Natanz) == Threat.Critique
  {
    var levels := Natanz.enrichmentLevels.value;
    ContainsAt(levels[0], "60%", 8);
  }

  lemma FordowIsCritical()
    ensures SiteThreat(Fordow) == Threat.Critique
  {
    var levels := Fordow.enrichmentLevels.value;
    ContainsAt(levels[0], "60%", 8);
  }

  lemma ArakIsModerate()
    ensures SiteThreat(Arak) == Threat.Modere
  {
    var levels := Arak.enrichmentLevels.value;
    assert Avoids(levels[0], "6");
    AbsentChar(levels[0], "60%", 0, "6");
  }

  lemma BushehrIsModerate()
    ensures SiteThreat(Bushehr) == Threat.Modere
  {
    var levels := Bushehr.enrichmentLevels.value;
    assert Avoids(levels[0], "6");
    AbsentChar(levels[0], "60%", 0, "6");
  }

  lemma AllFacilitiesPlaced()
    ensures forall i :: 0 <= i < |Facilities| ==> Facilities[i].1.coordinates.Some?
    ensures |Facilities| == 5
    ensures Facilities[0] == ("Isfahan", Isfahan) && Facilities[1] == ("Natanz", Natanz)
    ensures Facilities[2] == ("Fordow", Fordow) && Facilities[3] == ("Arak", Arak)
    ensures Facilities[4] == ("Bushehr", Bushehr)
  {
  }

  /** The map markers of the dataset, one lemma per facility in dictionary
      order: red and large for the three 60 % sites, green and small for
      the other two. */
  lemma IsfahanMarker()
    ensures |SitesData(Facilities)| == 5
    ensures SitesData(Facilities)[0].site == "Isfahan"
    ensures SitesData(Facilities)[0].color == Red && SitesData(Facilities)[0].size == 20
  {
    AllFacilitiesPlaced();
    PlacedMarker(Facilities, 0);
    IsfahanIsCritical();
  }

  lemma NatanzMarker()
    ensures |SitesData(Facilities)| == 5
    ensures SitesData(Facilities)[1].site == "Natanz"
    ensures SitesData(Facilities)[1].color == Red && SitesData(Facilities)[1].size == 20
  {
    AllFacilitiesPlaced();
    PlacedMarker(Facilities, 1);
    NatanzIsCritical();
  }

  lemma FordowMarker()
    ensures |SitesData(Facilities)| == 5
    ensures SitesData(Facilities)[2].site == "Fordow"
    ensures SitesData(Facilities)[2].color == Red && SitesData(Facilities)[2].size == 20
  {
    AllFacilitiesPlaced();
    PlacedMarker(Facilities, 2);
    FordowIsCritical();
  }

  lemma ArakMarker()
    ensures |SitesData(Facilities)| == 5
    ensures SitesData(Facilities)[3].site == "Arak"
    ensures SitesData(Facilities)[3].color == Green && SitesData(Facilities)[3].size == 15
  {
    AllFacilitiesPlaced();
    PlacedMarker(Facilities, 3);
    ArakIsModerate();
  }

  lemma BushehrMarker()
    ensures |SitesData(Facilities)| == 5
    ensures SitesData(Facilities)[4].site == "Bushehr"
    ensures SitesData(Facilities)[4].color == Green && SitesData(Facilities)[4].size == 15
  {
    AllFacilitiesPlaced();
    PlacedMarker(Facilities, 4);
    BushehrIsModerate();
  }

  /** Sizes follow colours: three red markers then two green ones give
      the sizes 20, 20, 20, 15, 15. */
  lemma SizesFollowColors(facilities: seq<(string, Facility)>)
    requires |SitesData(facilities)| == 5
    requires SitesData(facilities)[0].color == SitesData(facilities)[1].color
             == SitesData(facilities)[2].color == Red
    requires SitesData(facilities)[3].color == SitesData(facilities)[4].color == Green
    ensures MarkerSizes(facilities) == [20, 20, 20, 15, 15]
  {
    var sizes := MarkerSizes(facilities);
    assert sizes[0] == 20 && sizes[1] == 20 && sizes[2] == 20;
    assert sizes[3] == 15 && sizes[4] == 15;
  }

  /** The `taille` column of the dataset's markers. */
  lemma DatasetMarkerSizes()
    ensures MarkerSizes(Facilities) == [20, 20, 20, 15, 15]
  {
    IsfahanMarker();
    NatanzMarker();
    FordowMarker();
    ArakMarker();
    BushehrMarker();
    SizesFollowColors(Facilities);
  }

  /** The `size` list written into the map call gives Arak, a MODÉRÉ site,
      the CRITIQUE size. */
  lemma PlottedSizesDisagree()
    ensures |MarkerSizes(Facilities)| == |PlottedSizes| == 5
    ensures SitesData(Facilities)[3].site == "Arak" && SiteThreat(Arak) == Threat.Modere
    ensures PlottedSizes[3] == 20 && MarkerSizes(Facilities)[3] == 15
  {
    DatasetMarkerSizes();
    ArakMarker();
    ArakIsModerate();
  }

  /** The 60 % sites are CRITIQUE on the map although `get_threat_level`
      puts 60 % in the ÉLEVÉ band shown in the header. */
  lemma ClassifiersDisagreeAt60()
    ensures SiteThreat(Isfahan) == Threat.Critique
    ensures Threat.GetThreatLevel(60.0).0 == Threat.Eleve
  {
    IsfahanIsCritical();
  }

  /** Every timeline event type is in the colour table, so no event is grey. */
  lemma TimelineColorsOfDataset()
    ensures forall i :: 0 <= i < |TimelineEvents| ==> TimelineEvents[i].eventType in TimelineColors
    ensures forall i :: 0 <= i < |TimelineEvents| ==> TimelineColor(TimelineEvents[i].eventType) != Grey
    ensures TimelineColor(TimelineEvents[0].eventType) == Green
    ensures forall i :: 6 <= i < 9 ==> TimelineColor(TimelineEvents[i].eventType) == Red
  {
  }

  /** The rounds of `NEGOTIATIONS_DATA` in order: orange, green, grey,
      grey, green. */
  lemma NegotiationColors()
    ensures |Negotiations| == 5
    ensures OutcomeColor(Negotiations[0].outcome) == Orange
    ensures OutcomeColor(Negotiations[1].outcome) == Green
    ensures OutcomeColor(Negotiations[2].outcome) == Grey
    ensures OutcomeColor(Negotiations[3].outcome) == Grey
    ensures OutcomeColor(Negotiations[4].outcome) == Green
  {
    NoBreakthroughIsOrange();
    TechnicalTalksAreGreen();
    FirstRoundIsGrey();
    WashingtonMeetingIsGrey();
    ScheduledMeetingIsGreen();
  }

  /** The entries of `OFFICIAL_STATEMENTS` in order: blue, red, orange,
      red, green. */
  lemma StatementColors()
    ensures |OfficialStatements| == 5
    ensures SourceColor(OfficialStatements[0].source) == Blue
    ensures SourceColor(OfficialStatements[1].source) == Red
    ensures SourceColor(OfficialStatements[2].source) == Orange
    ensures SourceColor(OfficialStatements[3].source) == Red
    ensures SourceColor(OfficialStatements[4].source) == Green
  {
    IaeaIsBlue();
    VanceIsRed();
    OmanIsOrange();
    RubioIsRed();
    AraghchiIsGreen();
  }

  /** The weapon-equivalent figures for the reported 440.9 kg: about 10.5
      weapons at 60 % (10 whole ones, the headline figure), about 11.8
      after re-enrichment, and the critical threshold is reached. */
  lemma WeaponFigures()
    ensures 10.45 <= Bombs60(Uranium60Percent) < 10.55
    ensures Bombs60(Uranium60Percent).Floor == WeaponsPotential
    ensures Uranium90(Uranium60Percent) == 4409.0 / 15.0
    ensures 11.75 <= Bombs90(Uranium60Percent) < 11.85
    ensures CriticalThreshold(Uranium60Percent) == ("OUI", "inverse")
  {
  }

  /** `format_uranium_kg` on the dataset's quantities. */
  lemma FormattedQuantities()
    ensures FormatUraniumKg(Some(Uranium60Percent), true)
              == Quantity(Kilograms, 440.9, Some(Bombs60(Uranium60Percent)))
    ensures FormatUraniumKg(Some(UraniumTotal), true) == Quantity(Tonnes, 9.2476, Some(Bombs60(UraniumTotal)))
    ensures FormatUraniumKg(Some(UraniumTotal), false) == Quantity(Tonnes, 9.2476, None)
    ensures FormatUraniumKg(Some(0.0), true) == NotAvailable
    ensures FormatUraniumKg(None, true) == NotAvailable
  {
  }
}
