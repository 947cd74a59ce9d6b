/** The colour rules applied to particular texts: the access statuses,
    negotiation outcomes and statement sources of the dataset, and texts
    that show how the substring tests combine. */
module ColorFacts {
  import opened Text
  import opened Colors

  /** Capital "Non" is a denial; the same text lower-cased is not. */
  lemma NonIsCaseSensitive()
    ensures Lower("Non vérifié") == Lower("non vérifié")
    ensures FacilityStatusColor("Non vérifié") == Red
  {
    assert Lower("Non vérifié") == "non vérifié";
    assert Lower("non vérifié") == "non vérifié";
    ContainsAt("Non vérifié", "Non", 0);
  }

  lemma LowercaseNonIsGranted()
    ensures FacilityStatusColor("non vérifié") == Green
  {
    var lower := "non vérifié";
    assert Lower(lower) == lower;
    assert Avoids(lower, "aNp");
    AbsentChar(lower, "non autorisé", 4, "aNp");
    AbsentChar(lower, "Non", 0, "aNp");
    AbsentChar(lower, "partiel", 0, "aNp");
  }

  /** A denial wins over a partial access mentioned in the same text. */
  lemma DeniedBeatsPartial()
    ensures FacilityStatusColor("Partiel - Non autorisé") == Red
  {
    ContainsAt("Partiel - Non autorisé", "Non", 10);
  }

  /** Negotiation outcome colours, one outcome text at a time. */
  lemma NoBreakthroughIsOrange()
    ensures OutcomeColor("Aucune percée [citation:4]") == Orange
  {
    var o := "Aucune percée [citation:4]";
    assert Avoids(o, "gq");
    AbsentChar(o, "programmée", 3, "gq");
    AbsentChar(o, "techniques", 6, "gq");
    ContainsAt(o, "Aucune", 0);
  }

  lemma TechnicalTalksAreGreen()
    ensures OutcomeColor("Discussions techniques") == Green
  {
    ContainsAt("Discussions techniques", "techniques", 12);
  }

  lemma FirstRoundIsGrey()
    ensures OutcomeColor("Premier round indirect") == Grey
  {
    var o := "Premier round indirect";
    assert Avoids(o, "gqA");
    AbsentChar(o, "programmée", 3, "gqA");
    AbsentChar(o, "techniques", 6, "gqA");
    AbsentChar(o, "Aucune", 0, "gqA");
  }

  lemma WashingtonMeetingIsGrey()
    ensures OutcomeColor("Rencontre Vance-Busaidi [citation:2]") == Grey
  {
    var o := "Rencontre Vance-Busaidi [citation:2]";
    assert Avoids(o, "gqA");
    AbsentChar(o, "programmée", 3, "gqA");
    AbsentChar(o, "techniques", 6, "gqA");
    AbsentChar(o, "Aucune", 0, "gqA");
  }

  lemma ScheduledMeetingIsGreen()
    ensures OutcomeColor("Réunion programmée [citation:2]") == Green
  {
    var rest := "programmée [citation:2]";
    assert "Réunion programmée [citation:2]" == "Réunion " + rest;
    assert OccursAt(rest, "programmée", 0);
    HasTail("Réunion ", rest, "programmée");
  }

  /** Statement source colours, one source at a time. */
  lemma IaeaIsBlue()
    ensures SourceColor("IAEA") == Blue
  {
    ContainsAt("IAEA", "IAEA", 0);
  }

  lemma VanceIsRed()
    ensures SourceColor("Vice-président JD Vance") == Red
  {
    var src := "Vice-président JD Vance";
    assert Avoids(src, "I");
    AbsentChar(src, "IAEA", 0, "I");
    ContainsAt(src, "Vance", 18);
  }

  /** The Omani minister matches none of the names and falls through to
      the default colour. */
  lemma OmanIsOrange()
    ensures SourceColor("Oman FM Badr al Busaidi") == Orange
  {
    var src := "Oman FM Badr al Busaidi";
    assert Avoids(src, "IRVA");
    AbsentChar(src, "IAEA", 0, "IRVA");
    AbsentChar(src, "Rubio", 0, "IRVA");
    AbsentChar(src, "Vance", 0, "IRVA");
    AbsentChar(src, "Araghchi", 0, "IRVA");
  }

  lemma RubioIsRed()
    ensures SourceColor("Marco Rubio") == Red
  {
    var src := "Marco Rubio";
    assert Avoids(src, "I");
    AbsentChar(src, "IAEA", 0, "I");
    ContainsAt(src, "Rubio", 6);
  }

  lemma AraghchiIsGreen()
    ensures SourceColor("Abbas Araghchi") == Green
  {
    var src := "Abbas Araghchi";
    assert Avoids(src, "IRV");
    AbsentChar(src, "IAEA", 0, "IRV");
    AbsentChar(src, "Rubio", 0, "IRV");
    AbsentChar(src, "Vance", 0, "IRV");
    ContainsAt(src, "Araghchi", 6);
  }
}
