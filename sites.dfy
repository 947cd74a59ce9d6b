/** The map of nuclear sites: each facility with coordinates becomes a
    marker whose threat label decides its colour and size. */
module Sites {
  import opened Wrappers
  import opened Text
  import opened Colors
  import opened Dataset
  import Threat

  /** The threat label of a site: CRITIQUE when its enrichment list is
      present, non-empty and its `str()` contains "60%"; MODÉRÉ otherwise. */
  function SiteThreat(f: Facility): (t: string)
    ensures t == Threat.Critique || t == Threat.Modere
    ensures t == Threat.Critique <==>
              f.enrichmentLevels.Some? && SomeContains(f.enrichmentLevels.value, "60%")
  {
    PyStrListContains(f.enrichmentLevels.GetOr([]), "60%");
    if f.enrichmentLevels.Some? && |f.enrichmentLevels.value| > 0
       && Contains(PyStrList(f.enrichmentLevels.value), "60%")
    then Threat.Critique
    else Threat.Modere
  }

  /** The colour chain of the site loop, which also names ÉLEVÉ. */
  function SiteColor(threat: string): (c: string)
    ensures c == Red <==> threat == Threat.Critique
    ensures c == Orange <==> threat == Threat.Eleve
    ensures c == Green <==> threat != Threat.Critique && threat != Threat.Eleve
  {
    if threat == Threat.Critique then Red
    else if threat == Threat.Eleve then Orange
    else Green
  }

  /** Marker size: 20 for CRITIQUE, 15 otherwise. */
  function SiteSize(threat: string): (n: nat)
    ensures n == 20 || n == 15
    ensures n == 20 <==> threat == Threat.Critique
  {
    if threat == Threat.Critique then 20 else 15
  }

  /** One row of `sites_data`. */
  datatype SiteMarker = SiteMarker(
    site: string, lat: real, lon: real, status: string,
    enrichment: string, access: string, color: string, size: nat)

  /** The row the loop appends for a facility with coordinates. */
  function MarkerOf(entry: (string, Facility)): (m: SiteMarker)
    requires entry.1.coordinates.Some?
    ensures m.site == entry.0
    ensures m.lat == entry.1.coordinates.value.lat && m.lon == entry.1.coordinates.value.lon
    ensures m.status == entry.1.status
    ensures m.enrichment == Join(entry.1.enrichmentLevels.GetOr(["N/A"]), ", ")
    ensures m.access == entry.1.iaeaAccess.GetOr("Inconnu")
    ensures m.color == Red || m.color == Green
    ensures m.color == Red <==> SiteThreat(entry.1) == Threat.Critique
    ensures m.size == 20 <==> m.color == Red
    ensures m.size == 20 || m.size == 15
  {
    var (name, f) := entry;
    var threat := SiteThreat(f);
    SiteMarker(name, f.coordinates.value.lat, f.coordinates.value.lon, f.status,
               Join(f.enrichmentLevels.GetOr(["N/A"]), ", "), f.iaeaAccess.GetOr("Inconnu"),
               SiteColor(threat), SiteSize(threat))
  }

  /** `sites_data` for a facilities dictionary given in its iteration order:
      the markers of the facilities that have coordinates. The orange
      (ÉLEVÉ) branch of the colour chain is never taken. */
  function SitesData(facilities: seq<(string, Facility)>): (r: seq<SiteMarker>)
    ensures |r| <= |facilities|
    ensures forall j :: 0 <= j < |r| ==> r[j].color == Red || r[j].color == Green
    ensures forall j :: 0 <= j < |r| ==> (r[j].size == 20 <==> r[j].color == Red)
    ensures forall j :: 0 <= j < |r| ==> r[j].size == 20 || r[j].size == 15
  {
    if facilities == [] then []
    else
      var last := facilities[|facilities| - 1];
      SitesData(facilities[..|facilities| - 1])
        + (if last.1.coordinates.Some? then [MarkerOf(last)] else [])
  }

  /** The rows the loop appends for one facility: its marker when it has
      coordinates, nothing otherwise. */
  function RowsOf(entry: (string, Facility)): seq<SiteMarker> {
    if entry.1.coordinates.Some? then [MarkerOf(entry)] else []
  }

  /** Appending a facility to the dictionary appends its rows. */
  lemma SitesDataSnoc(facilities: seq<(string, Facility)>, entry: (string, Facility))
    ensures SitesData(facilities + [entry]) == SitesData(facilities) + RowsOf(entry)
  {
    assert (facilities + [entry])[..|facilities|] == facilities;
  }

  /** A dictionary of one facility yields its marker exactly when it has
      coordinates. */
  lemma SitesDataSingle(entry: (string, Facility))
    ensures entry.1.coordinates.Some? ==> SitesData([entry]) == [MarkerOf(entry)]
    ensures entry.1.coordinates.None? ==> SitesData([entry]) == []
  {
    assert [entry][..0] == [];
  }

  /** The loop handles the facilities one after the other: the rows of two
      consecutive runs of the dictionary are the rows of the first run
      followed by those of the second. */
  lemma {:induction false} SitesDataAppend(a: seq<(string, Facility)>, b: seq<(string, Facility)>)
    ensures SitesData(a + b) == SitesData(a) + SitesData(b)
    decreases |b|
  {
    if b == [] {
      assert a + b == a;
    } else {
      var n := |b| - 1;
      var init, last := b[..n], b[n];
      assert b == init + [last];
      assert a + b == (a + init) + [last];
      SitesDataAppend(a, init);
      SitesDataSnoc(a + init, last);
      SitesDataSnoc(init, last);
    }
  }

  /** Each facility with coordinates has its marker in `sites_data`, and
      every marker comes from such a facility. */
  lemma {:induction false} SitesDataMembers(facilities: seq<(string, Facility)>)
    ensures forall i :: 0 <= i < |facilities| && facilities[i].1.coordinates.Some? ==>
              MarkerOf(facilities[i]) in SitesData(facilities)
    ensures forall m :: m in SitesData(facilities) ==>
              exists i :: 0 <= i < |facilities| && facilities[i].1.coordinates.Some?
                          && m == MarkerOf(facilities[i])
  {
    if facilities != [] {
      var n := |facilities| - 1;
      var init := facilities[..n];
      SitesDataMembers(init);
      forall i | 0 <= i < n
        ensures facilities[i] == init[i]
      {
      }
    }
  }

  /** When every facility has coordinates, marker `i` is facility `i`'s. */
  lemma {:induction false} SitesDataAllPlaced(facilities: seq<(string, Facility)>)
    requires forall i :: 0 <= i < |facilities| ==> facilities[i].1.coordinates.Some?
    ensures |SitesData(facilities)| == |facilities|
    ensures forall i :: 0 <= i < |facilities| ==> SitesData(facilities)[i] == MarkerOf(facilities[i])
  {
    if facilities != [] {
      var n := |facilities| - 1;
      var init := facilities[..n];
      SitesDataAllPlaced(init);
      var r := SitesData(facilities);
      assert r == SitesData(init) + [MarkerOf(facilities[n])];
      forall i | 0 <= i < |facilities|
        ensures r[i] == MarkerOf(facilities[i])
      {
        if i < n {
          assert facilities[i] == init[i];
          assert r[i] == SitesData(init)[i];
        }
      }
    }
  }

  /** Marker `i` of a dictionary whose facilities all have coordinates. */
  lemma PlacedMarker(facilities: seq<(string, Facility)>, i: nat)
    requires i < |facilities|
    requires forall j :: 0 <= j < |facilities| ==> facilities[j].1.coordinates.Some?
    ensures |SitesData(facilities)| == |facilities|
    ensures SitesData(facilities)[i].site == facilities[i].0
    ensures SitesData(facilities)[i].color == Red <==> SiteThreat(facilities[i].1) == Threat.Critique
    ensures SitesData(facilities)[i].color == Red || SitesData(facilities)[i].color == Green
    ensures SitesData(facilities)[i].size == 20 <==> SitesData(facilities)[i].color == Red
  {
    SitesDataAllPlaced(facilities);
  }

  /** The loop that fills `sites_data`. */
  method BuildSitesData(facilities: seq<(string, Facility)>) returns (sitesData: seq<SiteMarker>)
    ensures sitesData == SitesData(facilities)
  {
    sitesData := [];
    for i := 0 to |facilities|
      invariant sitesData == SitesData(facilities[..i])
    {
      var (siteName, siteInfo) := facilities[i];
      if siteInfo.coordinates.Some? {
        var threat := SiteThreat(siteInfo);
        var color := SiteColor(threat);
        sitesData := sitesData + [SiteMarker(
          siteName, siteInfo.coordinates.value.lat, siteInfo.coordinates.value.lon,
          siteInfo.status, Join(siteInfo.enrichmentLevels.GetOr(["N/A"]), ", "),
          siteInfo.iaeaAccess.GetOr("Inconnu"), color, SiteSize(threat))];
      }
      assert facilities[..i + 1][..i] == facilities[..i];
    }
    assert facilities[..|facilities|] == facilities;
  }

  /** The colour of a facility's detail card: its IAEA access status,
      with a missing status read as the empty text. */
  function FacilityCardColor(f: Facility): (c: string)
    ensures c == Red || c == Orange || c == Green
    ensures f.iaeaAccess.None? ==> c == Green
    ensures f.iaeaAccess.Some? ==> (c == Red <==> AccessDenied(f.iaeaAccess.value))
    ensures f.iaeaAccess.Some? ==>
      (c == Orange <==> !AccessDenied(f.iaeaAccess.value) && Contains(Lower(f.iaeaAccess.value), "partiel"))
  {
    assert !Contains("", "non autorisé") && !Contains("", "Non") && !Contains("", "partiel");
    FacilityStatusColor(f.iaeaAccess.GetOr(""))
  }

  /** The `size` list the map is drawn with, written out in the source. */
  const PlottedSizes: seq<nat> := [20, 20, 20, 20, 15]

  /** The sizes the map should be drawn with: the `taille` column of
      `sites_data`, 20 exactly for the CRITIQUE sites. */
  function MarkerSizes(facilities: seq<(string, Facility)>): (r: seq<nat>)
    ensures |r| == |SitesData(facilities)|
    ensures forall i :: 0 <= i < |r| ==> (r[i] == 20 <==> SitesData(facilities)[i].color == Red)
    ensures forall i :: 0 <= i < |r| ==> r[i] == 20 || r[i] == 15
  {
    var sites := SitesData(facilities);
    seq(|sites|, i requires 0 <= i < |sites| => sites[i].size)
  }
}
