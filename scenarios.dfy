/** End-to-end uses of the page model: concrete provider replies and sequences of
    handler calls, and what a caller can conclude from the contracts alone. */
module Scenarios {
  import opened Json
  import opened Hotspots
  import opened Rain
  import opened Facets
  import opened Page

  /** A feature with coordinates `[100.5, 13.7]` and only `pv_tn` set. */
  function BangkokFeature(): Feature
  {
    Feature(None, Some(Geometry(Some([Some(100.5), Some(13.7)]))),
      Some(Properties(Some("กรุงเทพ"), None, None, None, None, None, None, None, None, None, None, None)))
  }

  /** The axes are swapped and every absent property takes its default. */
  lemma BangkokHotspot()
    ensures var r := AdaptHotspots(Received(Collection(Some([BangkokFeature()]))));
      && r.Ok? && |r.value| == 1
      && r.value[0].latitude == Some(13.7) && r.value[0].longitude == Some(100.5)
      && r.value[0].province == "กรุงเทพ" && r.value[0].frp == 0.0 && r.value[0].confidence == ""
      && r.value[0].id == ""
  {
  }

  /** A reading whose station name object is `{}`, whose geocode and agency are `{}`
      and whose basin is `null`. */
  function SparseItem(): Item
  {
    Item(Some(1.0), Some(Station(Some(14.0), Some(101.0), Some(LocalName(None)))),
      Some(5.0), Some("2024-01-01"),
      Some(Geocode(None, None, None)), Some(Agency(None)), None)
  }

  /** The placeholders `"-"` and the empty defaults appear; the reading is copied. */
  lemma SparseRainPoint()
    ensures var r := AdaptRain(Received(Envelope(Some([SparseItem()]))));
      && r.Ok? && |r.value| == 1
      && r.value[0].station_name == "-" && r.value[0].basin == "-"
      && r.value[0].province == "" && r.value[0].agency == ""
      && r.value[0].rain_24h == Some(5.0)
  {
  }

  /** The same reading without its `geocode` object makes the whole reply fail, even
      next to a well-formed reading. */
  lemma MissingGeocodeFailsWholeReply()
    ensures AdaptRain(Received(Envelope(Some([SparseItem(), SparseItem().(geocode := None)])))).Thrown?
  {
    var items := [SparseItem(), SparseItem().(geocode := None)];
    assert !ItemReadable(items[1]);
  }

  /** Selecting a province no point has shows nothing and leaves the stored list as it is. */
  method UnknownProvinceShowsNothing(env: Option<string>, floodReply: Fetch<Envelope>)
    requires AdaptRain(floodReply).Ok? && AdaptRain(floodReply).value != []
    requires forall r :: r in AdaptRain(floodReply).value ==> r.province != "เชียงใหม่"
  {
    var page := new HomePage(env);
    page.SetDataType(FloodData);
    var fetched := page.RunEffect(Failed, floodReply);
    assert fetched;
    var stored := page.rains;
    page.SelectProvince("เชียงใหม่");
    assert page.Shown() == RainPoints([]) by {
      WhereEmpty(page.rains, "เชียงใหม่");
    }
    assert page.rains == stored != [];
    fetched := page.RunEffect(Failed, Failed);
    assert !fetched;
  }

  /** The last hotspot list survives a successful rainfall fetch and is shown again as
      soon as the user switches back, before the re-fetch that the switch triggers. */
  method SwitchingBackShowsHotspots(env: Option<string>, hotspotReply: Fetch<Collection>, floodReply: Fetch<Envelope>)
    requires AdaptHotspots(hotspotReply).Ok? && AdaptRain(floodReply).Ok?
  {
    var page := new HomePage(env);
    var fetched := page.RunEffect(hotspotReply, Failed);
    assert fetched && page.hotspots == AdaptHotspots(hotspotReply).value;
    page.SetDataType(FloodData);
    fetched := page.RunEffect(Failed, floodReply);
    assert fetched && page.hotspots == AdaptHotspots(hotspotReply).value;
    page.SetDataType(HotspotData);
    assert page.Shown() == HotspotPoints(AdaptHotspots(hotspotReply).value);
    assert page.EffectPending();
  }

  /** A failed rainfall fetch also discards the hotspots fetched before it; the selected
      province survives both the switch and the failure. */
  method FloodFailureClearsHotspots(env: Option<string>, hotspotReply: Fetch<Collection>)
    requires AdaptHotspots(hotspotReply).Ok?
  {
    var page := new HomePage(env);
    var fetched := page.RunEffect(hotspotReply, Failed);
    page.SelectProvince("เชียงใหม่");
    page.SetDataType(FloodData);
    fetched := page.RunEffect(hotspotReply, Failed);
    assert fetched && page.hotspots == [] && page.rains == [];
    assert page.selectedProvince == "เชียงใหม่";
  }
}
