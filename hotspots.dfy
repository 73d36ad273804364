/** The heat-detection adapter: each GeoJSON-like feature of the hotspot provider
    becomes a `Hotspot` record (app/page.tsx, the `json.features.map` call). */
module Hotspots {
  import opened Json

  /** The `properties` object of a feature; every field may be nullish. */
  datatype Properties = Properties(
    pv_tn: Option<string>, pv_en: Option<string>,
    amphoe: Option<string>, tambol: Option<string>, village: Option<string>,
    acq_date: Option<string>, acq_time: Option<string>,
    frp: Option<Number>, confidence: Option<string>,
    lu_name: Option<string>, lu_hp_name: Option<string>, linkgmap: Option<string>)

  /** `geometry.coordinates` is `[longitude, latitude]`; its elements may be `null`. */
  datatype Geometry = Geometry(coordinates: Option<seq<Option<Number>>>)

  datatype Feature = Feature(id: Option<string>, geometry: Option<Geometry>, properties: Option<Properties>)

  /** The response body of the hotspot provider. */
  datatype Collection = Collection(features: Option<seq<Feature>>)

  /** The internal heat-detection point. Latitude and longitude are copied without a
      default, so they are `None` exactly when the source coordinate read `undefined`
      or `null`. */
  datatype Hotspot = Hotspot(
    id: string, latitude: Option<Number>, longitude: Option<Number>,
    province: string, pv_en: string, amphoe: string, tambol: string, village: string,
    acq_date: string, acq_time: string, frp: Number, confidence: string,
    lu_name: string, lu_hp_name: string, linkgmap: string)

  /** Reading the feature does not throw: `f.geometry.coordinates[...]` and
      `f.properties.*` have objects to read from. */
  predicate FeatureReadable(f: Feature)
  {
    f.geometry.Some? && f.geometry.value.coordinates.Some? && f.properties.Some?
  }

  /** The `features.map` callback: axes swapped, every property defaulted with `??`. */
  function MapFeature(f: Feature): (r: Result<Hotspot>)
    ensures r.Ok? <==> FeatureReadable(f)
  {
    if !FeatureReadable(f) then Thrown
    else
      var c := f.geometry.value.coordinates.value;
      var p := f.properties.value;
      Ok(Hotspot(
        Coalesce(f.id, ""), At(c, 1), At(c, 0),
        Coalesce(p.pv_tn, ""), Coalesce(p.pv_en, ""),
        Coalesce(p.amphoe, ""), Coalesce(p.tambol, ""), Coalesce(p.village, ""),
        Coalesce(p.acq_date, ""), Coalesce(p.acq_time, ""),
        Coalesce(p.frp, 0.0), Coalesce(p.confidence, ""),
        Coalesce(p.lu_name, ""), Coalesce(p.lu_hp_name, ""), Coalesce(p.linkgmap, "")))
  }

  /** The hotspot branch of `fetchData` up to `setHotspots`: a failed fetch, a body
      without `features` and any unreadable feature all throw; otherwise there is one
      hotspot per feature, in order. */
  function AdaptHotspots(reply: Fetch<Collection>): (r: Result<seq<Hotspot>>)
    ensures r.Ok? <==>
      && reply.Received? && reply.body.features.Some?
      && forall i :: 0 <= i < |reply.body.features.value| ==> FeatureReadable(reply.body.features.value[i])
    ensures r.Ok? ==>
      var fs := reply.body.features.value;
      |r.value| == |fs| && forall i :: 0 <= i < |fs| ==> MapFeature(fs[i]) == Ok(r.value[i])
  {
    match reply
    case Failed => Thrown
    case Received(body) =>
      if body.features.None? then Thrown else Traverse(MapFeature, body.features.value)
  }

  /** Every produced hotspot takes its latitude from `coordinates[1]` and its longitude
      from `coordinates[0]` of the feature at the same position. */
  lemma AxisSwap(reply: Fetch<Collection>, i: nat)
    requires AdaptHotspots(reply).Ok? && i < |AdaptHotspots(reply).value|
    ensures reply.Received? && reply.body.features.Some? && i < |reply.body.features.value|
    ensures
      var f := reply.body.features.value[i];
      var h := AdaptHotspots(reply).value[i];
      && f.geometry.Some? && f.geometry.value.coordinates.Some?
      && h.latitude == At(f.geometry.value.coordinates.value, 1)
      && h.longitude == At(f.geometry.value.coordinates.value, 0)
  {
    var fs := reply.body.features.value;
    assert MapFeature(fs[i]) == Ok(AdaptHotspots(reply).value[i]);
  }

  /** Every text property that is nullish becomes `""` and a nullish `frp` becomes 0;
      a present value, an empty string included, is copied unchanged. */
  lemma HotspotDefaults(f: Feature)
    requires FeatureReadable(f)
    ensures
      var p := f.properties.value;
      var h := MapFeature(f).value;
      && NullishDefault(f.id, "", h.id)
      && NullishDefault(p.pv_tn, "", h.province) && NullishDefault(p.pv_en, "", h.pv_en)
      && NullishDefault(p.amphoe, "", h.amphoe) && NullishDefault(p.tambol, "", h.tambol)
      && NullishDefault(p.village, "", h.village)
      && NullishDefault(p.acq_date, "", h.acq_date) && NullishDefault(p.acq_time, "", h.acq_time)
      && NullishDefault(p.frp, 0.0, h.frp) && NullishDefault(p.confidence, "", h.confidence)
      && NullishDefault(p.lu_name, "", h.lu_name) && NullishDefault(p.lu_hp_name, "", h.lu_hp_name)
      && NullishDefault(p.linkgmap, "", h.linkgmap)
  {
  }

  /** The provider feature that carries every field of `h` explicitly. */
  function ToFeature(h: Hotspot): Feature
  {
    Feature(Some(h.id), Some(Geometry(Some([h.longitude, h.latitude]))),
      Some(Properties(Some(h.province), Some(h.pv_en), Some(h.amphoe), Some(h.tambol), Some(h.village),
        Some(h.acq_date), Some(h.acq_time), Some(h.frp), Some(h.confidence),
        Some(h.lu_name), Some(h.lu_hp_name), Some(h.linkgmap))))
  }

  /** The mapping is onto: every hotspot list is the result of some reply, namely the
      one that lists its `ToFeature` images. (It is not one-to-one: a nullish property
      and its default map alike.) */
  lemma AdaptHotspotsRoundTrip(hs: seq<Hotspot>)
    ensures AdaptHotspots(Received(Collection(Some(seq(|hs|, i requires 0 <= i < |hs| => ToFeature(hs[i])))))) == Ok(hs)
  {
    var fs := seq(|hs|, i requires 0 <= i < |hs| => ToFeature(hs[i]));
    assert forall i :: 0 <= i < |fs| ==> MapFeature(fs[i]) == Ok(hs[i]);
    var r := AdaptHotspots(Received(Collection(Some(fs))));
    assert r.value == hs;
  }
}
