# Iran nuclear dashboard: the classification and derivation rules

`Dashboard.py` is a Streamlit dashboard over a static dataset of IAEA
reporting on Iran's nuclear programme: uranium stocks, five facilities, a
timeline, negotiation rounds and official statements. Nearly all of it is
page layout and charting. This project models the small decision
procedures that turn the dataset into what the pages show, and proves
what they compute:

- `get_threat_level`, the four-band enrichment classifier of the header
  badge (module `Threat`);
- `get_facility_status_color` and the colour rules of the timeline, the
  negotiation rounds and the official statements (module `Colors`);
- the weapon-equivalent arithmetic of the enrichment page with its
  "critical threshold" verdict, over exact reals (module `Uranium`);
- `format_uranium_kg`, which the file defines but never calls: the pages
  print the 60 % stock as the raw number followed by " kg" (line 440) and
  the total in kg with no decimals (line 447). The model states what the
  function would return (module `Uranium`);
- the loop that builds `sites_data`, the rows of the site map, with each
  site's threat label, colour and marker size (module `Sites`);
- the dataset itself, `LATEST_IAEA_DATA`, `NEGOTIATIONS_DATA` and
  `OFFICIAL_STATEMENTS`, as constants (module `Dataset`). The colours and
  figures it produces are derived in `ColorFacts` and `DatasetFacts`.

The Python operations these rules rest on are modelled in `Text`:
- the substring test `n in s` (`Contains`);
- `str.lower()` restricted to ASCII letters;
- `", ".join(...)`;
- the text that `str()` gives for a list of strings (`PyStrList`: the
  brackets, `repr` of each element with Python's quote choice and escaping,
  and the separators).

`PyStrListContains` shows that a needle such as `"60%"`, which holds
no bracket, quote, comma, space or backslash, occurs in `str(levels)`
exactly when it occurs in one of the elements, for elements without
control or non-printable characters (see `Text.PyRepr` under "## Left
out"). That is the fact the site loop's `"60%" in str(...)` test depends
on.

The detail cards call `get_facility_status_color`. It tests `"Non"`
case-sensitively, on the original text. Only `"non autorisé"` and
`"partiel"` are tested on the lower-cased text. So "Non vérifié" is red
while "non vérifié" is green (`ColorFacts.NonIsCaseSensitive`,
`ColorFacts.LowercaseNonIsGranted`).

The map's threat label and the header badge disagree about 60 %
enrichment. The site loop calls any site whose levels mention "60%"
CRITIQUE. `get_threat_level(60)` puts 60 % in the ÉLEVÉ band
(`DatasetFacts.ClassifiersDisagreeAt60`). The two classifiers are
independent in the source, and the model keeps both. The site loop's own
test yields only CRITIQUE or MODÉRÉ (`Sites.SiteThreat`), so the
ÉLEVÉ/orange branch of the site colour chain is never taken
(`Sites.MarkerOf`, `Sites.SitesData`).

## Model

| member | source | states |
|---|---|---|
| Threat.GetThreatLevel | Dashboard.py:336-345 | the label is CRITIQUE iff p ≥ 90, ÉLEVÉ iff 60 ≤ p < 90, MODÉRÉ iff 20 ≤ p < 60, FAIBLE iff p < 20 (each boundary in the higher band), with the disc 🔴, 🟠, 🟡, 🟢 of each band |
| Threat.SeverityMonotone | Dashboard.py:336-345 | a higher percentage never gets a less severe label |
| Threat.SeverityDeterminesLabel | Dashboard.py:336-345 | two percentages get the same (label, icon) pair iff their labels have the same severity: the four bands are distinct rungs |
| Threat.HeaderBadge | Dashboard.py:412 | the badge `get_threat_level(60)` is ("ÉLEVÉ", "🟠"), and just below 60 the label drops to MODÉRÉ |
| Colors.FacilityStatusColor | Dashboard.py:347-354 | the colour is always red, orange or green; red iff the lower-cased text contains "non autorisé" or the text contains "Non"; orange iff not red and the lower-cased text contains "partiel"; green otherwise |
| Colors.TimelineColor | Dashboard.py:570-578 | the colour of an event type, read backwards: red exactly for "escalade" and "attaque", orange exactly for "crise" and "seuil", blue exactly for "nouvelle" and "rapport", green exactly for "accord", and the grey default `#666666` exactly for types outside the table |
| Colors.OutcomeColor | Dashboard.py:809 | green iff the outcome contains "programmée" or "techniques"; orange iff neither and it contains "Aucune"; grey iff none of the three |
| Colors.SourceColor | Dashboard.py:937 | blue iff the source contains "IAEA"; red iff not and it contains "Rubio" or "Vance"; green iff none of those and it contains "Araghchi"; orange iff none of the four |
| ColorFacts.NonIsCaseSensitive | Dashboard.py:349 | "Non vérifié" and "non vérifié" lower-case alike, yet the first is red |
| ColorFacts.LowercaseNonIsGranted | Dashboard.py:349-354 | "non vérifié" is green: the lower-case "non" is not a denial |
| ColorFacts.DeniedBeatsPartial | Dashboard.py:349-352 | "Partiel - Non autorisé" is red: the denial test comes before the partial one |
| ColorFacts.NoBreakthroughIsOrange | Dashboard.py:809 | the outcome "Aucune percée [citation:4]" is orange |
| ColorFacts.TechnicalTalksAreGreen | Dashboard.py:809 | "Discussions techniques" is green |
| ColorFacts.FirstRoundIsGrey | Dashboard.py:809 | "Premier round indirect" is grey |
| ColorFacts.WashingtonMeetingIsGrey | Dashboard.py:809 | "Rencontre Vance-Busaidi [citation:2]" is grey |
| ColorFacts.ScheduledMeetingIsGreen | Dashboard.py:809 | "Réunion programmée [citation:2]" is green |
| ColorFacts.IaeaIsBlue | Dashboard.py:937 | the source "IAEA" is blue |
| ColorFacts.VanceIsRed | Dashboard.py:937 | "Vice-président JD Vance" is red |
| ColorFacts.OmanIsOrange | Dashboard.py:937 | "Oman FM Badr al Busaidi" matches no name and is orange |
| ColorFacts.RubioIsRed | Dashboard.py:937 | "Marco Rubio" is red |
| ColorFacts.AraghchiIsGreen | Dashboard.py:937 | "Abbas Araghchi" is green |
| Uranium.FormatUraniumKg | Dashboard.py:319-334 | "N/A" iff the value is None or 0; otherwise tonnes iff ≥ 1000 with the amount value/1000, else the value in kg; the bomb count is appended iff `include_bombs` and the value is positive, and it is value/42 |
| Uranium.Render | Dashboard.py:322-332 | the text of a result: "N/A" for the N/A case; otherwise it starts with the amount formatted to two decimals and " tonnes", or to one decimal and " kg" |
| Uranium.RenderDistinguishesCases | Dashboard.py:319-334 | whatever digits the formatter prints, the text is "N/A" exactly for the N/A case, and ends in ")" exactly when the bomb count was appended |
| Uranium.NegativeHasNoBombs | Dashboard.py:324-333 | a negative quantity is formatted in kg, unchanged, with no bomb count |
| Uranium.Bombs60 | Dashboard.py:783 | `bombs_60` times 42 kg is the stock |
| Uranium.Uranium90 | Dashboard.py:791 | `uranium_90` at 90 % holds the same amount of U-235 as the stock at 60 % |
| Uranium.Bombs90 | Dashboard.py:792 | `bombs_90` times 25 kg is `uranium_90`, that is 2/75 of the stock |
| Uranium.GradeConversionYieldsMore | Dashboard.py:783-793 | for a positive stock, the re-enriched count exceeds the 60 % count |
| Uranium.CriticalThreshold | Dashboard.py:796-797 | the verdict is "OUI" iff the stock is at least 10 × 42 = 420 kg, else "NON"; the delta colour is "inverse" with OUI and "normal" with NON |
| Uranium.ThresholdMonotone | Dashboard.py:796 | once reached, the threshold stays reached for any larger stock |
| Text.Contains | Dashboard.py:349 | Python's `n in s`: `n` occurs in `s` at some offset |
| Text.ContainsUnfold | Dashboard.py:349 | `n in s` holds iff `s` starts with `n` or `n in s[1:]` for a non-empty `s` |
| Text.Lower | Dashboard.py:349 | `str.lower()` on ASCII: same length, each character lower-cased by `LowerChar` |
| Text.LowerIdempotent | Dashboard.py:349 | lower-casing twice is lower-casing once |
| Text.Join | Dashboard.py:614 | `sep.join` of one element is that element, and the joined text contains every element |
| Text.PyRepr | Dashboard.py:606 | `repr` of a string: at least two characters longer than the string, and it opens and closes with the quote Python picks, a double quote exactly when the text holds a single quote and no double quote |
| Text.PyStrList | Dashboard.py:606 | `str()` of a list starts with "[" and ends with "]", and the empty list gives "[]" |
| Text.PyStrListContains | Dashboard.py:606 | a needle free of brackets, quotes, commas, spaces and backslashes occurs in `str(xs)` iff it occurs in some element of `xs` |
| Text.ContainsSplit | Dashboard.py:606 | a needle lacking a character `d` occurs in `a + [d] + b` iff it occurs in `a` or in `b` |
| Text.EscapeContains | Dashboard.py:606 | the escaping `repr` applies neither creates nor destroys an occurrence of a needle free of the quote and the backslash |
| Sites.SiteThreat | Dashboard.py:606 | the label is CRITIQUE or MODÉRÉ, and CRITIQUE iff the enrichment list is present and one of its elements contains "60%" |
| Sites.SiteColor | Dashboard.py:607 | red iff CRITIQUE, orange iff ÉLEVÉ, green otherwise |
| Sites.SiteSize | Dashboard.py:617 | 20 iff CRITIQUE, else 15 |
| Sites.MarkerOf | Dashboard.py:609-618 | a row carries the site's key, coordinates and status, its enrichment levels joined by ", " ("N/A" when missing) and its access status ("Inconnu" when missing); its colour is red or green, never orange, red iff the site is CRITIQUE; its size is 20 iff red, else 15 |
| Sites.SitesData | Dashboard.py:603-618 | `sites_data` has no more rows than the dictionary has facilities; every row is red or green, sized 20 iff red, else 15 |
| Sites.SitesDataSingle | Dashboard.py:604-618 | one facility yields exactly its row when it has coordinates, and no row otherwise |
| Sites.SitesDataAppend | Dashboard.py:604-618 | the rows of a dictionary are the rows of its first part followed by the rows of the rest, so with `SitesDataSingle` the rows are one per facility with coordinates, in dictionary order |
| Sites.SitesDataMembers | Dashboard.py:604-609 | every facility with coordinates has its row in `sites_data`, and every row is the row of a facility with coordinates |
| Sites.SitesDataAllPlaced | Dashboard.py:603-618 | when every facility has coordinates, `sites_data` has one row per facility, row `i` being facility `i`'s, in dictionary order |
| Sites.PlacedMarker | Dashboard.py:603-618 | in that case row `i` carries key `i`, is red iff facility `i` is CRITIQUE, otherwise green, and is sized 20 iff red |
| Sites.BuildSitesData | Dashboard.py:603-618 | the loop that appends a row per facility with coordinates yields `SitesData` of the dictionary |
| Sites.FacilityCardColor | Dashboard.py:646 | the detail-card colour is red, orange or green; a facility without an access status is green; otherwise red exactly when its status is a denial, and orange exactly when it is not a denial and its lower-cased text contains "partiel" |
| Sites.PlottedSizes | Dashboard.py:630 | the size list written into the map call, [20, 20, 20, 20, 15] |
| Sites.MarkerSizes | Dashboard.py:617 | the `taille` column: one size per row, 20 exactly for the red (CRITIQUE) rows, else 15 |
| Dataset.Facilities | Dashboard.py:201-256 | the `facilities` dictionary in insertion order, with the name, status, enrichment levels, access status, last inspection and coordinates of each site |
| Dataset.Uranium60Percent | Dashboard.py:198 | 440.9 kg of uranium at 60 % |
| Dataset.UraniumTotal | Dashboard.py:199 | 9247.6 kg of enriched uranium in total |
| Dataset.WeaponsPotential | Dashboard.py:200 | the headline count of 10 potential weapons |
| Dataset.SignificantQuantityThreshold | Dashboard.py:286 | 42 kg at 60 % per weapon |
| Dataset.TimelineEvents | Dashboard.py:257-269 | the eleven timeline events with their dates and types |
| Dataset.Negotiations | Dashboard.py:301-307 | the five negotiation rounds with their outcomes |
| Dataset.OfficialStatements | Dashboard.py:310-316 | the five official statements with their sources |
| DatasetFacts.DeniedFacilities | Dashboard.py:207-231 | Isfahan ("Non autorisé depuis juin 2025"), Natanz and Fordow ("Non autorisé") have red cards |
| DatasetFacts.PartialFacility | Dashboard.py:241 | Arak ("Partiel") has an orange card |
| DatasetFacts.GrantedFacility | Dashboard.py:251 | Bushehr ("Autorisé") has a green card |
| DatasetFacts.IsfahanIsCritical | Dashboard.py:205 | Isfahan, with levels ["20%", "60%"], is CRITIQUE |
| DatasetFacts.NatanzIsCritical | Dashboard.py:218 | Natanz, with "Jusqu'à 60%", is CRITIQUE |
| DatasetFacts.FordowIsCritical | Dashboard.py:229 | Fordow, with "Jusqu'à 60%", is CRITIQUE |
| DatasetFacts.ArakIsModerate | Dashboard.py:239 | Arak, "Non enrichi", is MODÉRÉ |
| DatasetFacts.BushehrIsModerate | Dashboard.py:249 | Bushehr, "Non enrichi", is MODÉRÉ |
| DatasetFacts.AllFacilitiesPlaced | Dashboard.py:201-256 | the dictionary holds the five facilities in insertion order, each with coordinates |
| DatasetFacts.IsfahanMarker | Dashboard.py:603-618 | the map has five rows; the first is Isfahan's, red, size 20 |
| DatasetFacts.NatanzMarker | Dashboard.py:603-618 | the second row is Natanz's, red, size 20 |
| DatasetFacts.FordowMarker | Dashboard.py:603-618 | the third row is Fordow's, red, size 20 |
| DatasetFacts.ArakMarker | Dashboard.py:603-618 | the fourth row is Arak's, green, size 15 |
| DatasetFacts.BushehrMarker | Dashboard.py:603-618 | the fifth row is Bushehr's, green, size 15 |
| DatasetFacts.DatasetMarkerSizes | Dashboard.py:617 | the `taille` column of the dataset is [20, 20, 20, 15, 15] |
| DatasetFacts.PlottedSizesDisagree | Dashboard.py:630 | the size list passed to the map gives the fourth marker, Arak, size 20, though Arak is MODÉRÉ and its `taille` is 15 |
| DatasetFacts.ClassifiersDisagreeAt60 | Dashboard.py:412 | Isfahan is CRITIQUE on the map while `get_threat_level(60)` says ÉLEVÉ |
| DatasetFacts.TimelineColorsOfDataset | Dashboard.py:257-269 | every event type of the timeline is in the colour table, so no event is grey; the JCPOA signature is green and the three strikes are red |
| DatasetFacts.NegotiationColors | Dashboard.py:301-307 | the five rounds are orange, green, grey, grey and green, in order |
| DatasetFacts.StatementColors | Dashboard.py:310-316 | the five statements are blue, red, orange, red and green, in order |
| DatasetFacts.WeaponFigures | Dashboard.py:783-797 | for 440.9 kg: about 10.5 weapons at 60 %, 10 whole ones (the headline `weapons_potential`), about 11.8 after re-enrichment, and the verdict is ("OUI", "inverse") |
| DatasetFacts.FormattedQuantities | Dashboard.py:319-334 | what `format_uranium_kg` would return, were it called: 440.9 kg in kg with its bomb count, the 9247.6 kg total in tonnes (9.2476), and "N/A" for 0 and None |

## Left out

- Streamlit layout, CSS, sidebar widgets, menu routing and session state are presentation, not derivations.
- Plotly figure construction is foreign library code: charts, the map, gauges and reference lines. So is the effect of `color_discrete_sequence` on the map, which is not bound to the `couleur` column.
- pandas DataFrames, `INSPECTION_HISTORY` and `pd.date_range` depend on library semantics outside the model.
- The timeline's `sort_values('date')` is left out. The events are kept in the order the dataset lists them, which is already chronological.
- `days_since_last` reads the wall clock.
- Uranium.Render: the digits of `:.1f` and `:.2f` are not modelled. They are passed in as formatter functions, because IEEE rounding and decimal printing are library behaviour. The arithmetic is over exact reals, not floats.
- Text.Lower: lower-cases ASCII letters only, and accented capitals such as "É" stay unchanged. This is enough for the dataset's texts. For other texts it changes `Colors.FacilityStatusColor`: "NON AUTORISÉ" lower-cases to "non autorisÉ" in the model, so it is green, while Python's `lower()` gives "non autorisé" and makes it red.
- Text.PyRepr: models the quote choice and the escaping of the backslash and the quote. It does not model the escaping of control and non-printable characters, which none of the dataset's strings contain. Python escapes those as `\xNN` or `\uNNNN`, and the hex digits can form the needle: for levels `["\x060%"]`, `str(...)` is `['\x060%']`, which contains "60%", so Python labels the site CRITIQUE, while `Sites.SiteThreat` gives MODÉRÉ because no element contains "60%".
- Uranium.FormatUraniumKg: `include_bombs` is a required argument. The Python default `include_bombs=True` is not modelled, since Dafny functions have no default arguments and nothing calls the function.
- The dead local `bombs` in `format_uranium_kg` has no effect.
- The `thresholds` entries `weapons_grade`, `jcpoa_limit` and `breakout_time` (lines 285-288) are left out: the first two are never read, and the third is only displayed (line 461). The tables at lines 997-1016 and the weapon arithmetic write their figures as literals. Only `significant_quantity` is kept (`Dataset.SignificantQuantityThreshold`), and `format_uranium_kg` reads it at line 330.
- `enrichment_history` is not kept in the constants, because nothing derived from it is modelled. The descriptive facility fields such as `storage_tunnel`, `vehicle_activity`, `bombed` and `damage` are not kept either. `name` and `last_inspection` are kept although no modelled rule reads them: only the detail cards display them (lines 650 and 654).
- The static markdown texts and the unused imports are left out.

## Findings

| source | as written | input that shows it | evidently intended | confidence | as-written member | corrected member |
|---|---|---|---|---|---|---|
| Dashboard.py:630 | the map is drawn with the fixed size list [20, 20, 20, 20, 15] | the dataset's dictionary order Isfahan, Natanz, Fordow, Arak, Bushehr: Arak, MODÉRÉ with `taille` 15, is drawn at 20 | the sizes of the `taille` column, 20 exactly for the CRITIQUE sites: [20, 20, 20, 15, 15] | medium; not executed | DatasetFacts.PlottedSizesDisagree | Sites.MarkerSizes |
