/** The rainfall adapter: each item of the rainfall provider's `data` list becomes a
    `RainPoint` record (app/page.tsx, the `json.data.map` call). */
module Rain {
  import opened Json

  datatype Station = Station(
    tele_station_lat: Option<Number>, tele_station_long: Option<Number>,
    tele_station_name: Option<LocalName>)

  datatype Geocode = Geocode(
    province_name: Option<LocalName>, amphoe_name: Option<LocalName>, tumbon_name: Option<LocalName>)

  datatype Agency = Agency(agency_name: Option<LocalName>)

  datatype Basin = Basin(basin_name: Option<LocalName>)

  /** One reading of the rainfall provider; every key may be nullish. */
  datatype Item = Item(
    id: Option<Number>, station: Option<Station>,
    rain_24h: Option<Number>, rainfall_datetime: Option<string>,
    geocode: Option<Geocode>, agency: Option<Agency>, basin: Option<Basin>)

  /** The response body of the rainfall provider. */
  datatype Envelope = Envelope(data: Option<seq<Item>>)

  /** The internal rainfall point. The fields the code copies without a default
      (`id`, the coordinates, `rain_24h`, `rainfall_datetime`) keep the source's
      nullish value; every other field is a string. */
  datatype RainPoint = RainPoint(
    id: Option<Number>, latitude: Option<Number>, longitude: Option<Number>,
    station_name: string, rain_24h: Option<Number>, rainfall_datetime: Option<string>,
    province: string, amphoe: string, tumbon: string, agency: string, basin: string)

  /** Reading the item does not throw: `item.station`, `item.geocode` and `item.agency`
      are read without `?.`, so each must be an object. */
  predicate ItemReadable(item: Item)
  {
    item.station.Some? && item.geocode.Some? && item.agency.Some?
  }

  /** `item.basin?.basin_name?.th`. */
  function BasinTh(b: Option<Basin>): Option<string>
  {
    match b
    case None => None
    case Some(basin) => Th(basin.basin_name)
  }

  /** The `data.map` callback. */
  function MapItem(item: Item): (r: Result<RainPoint>)
    ensures r.Ok? <==> ItemReadable(item)
  {
    if !ItemReadable(item) then Thrown
    else
      var s := item.station.value;
      var g := item.geocode.value;
      Ok(RainPoint(
        item.id, s.tele_station_lat, s.tele_station_long,
        Coalesce(Th(s.tele_station_name), "-"),
        item.rain_24h, item.rainfall_datetime,
        Coalesce(Th(g.province_name), ""), Coalesce(Th(g.amphoe_name), ""),
        Coalesce(Th(g.tumbon_name), ""), Coalesce(Th(item.agency.value.agency_name), ""),
        Coalesce(BasinTh(item.basin), "-")))
  }

  /** The flood branch of `fetchData` up to `setRains`: a failed fetch, a body without
      `data` and any item lacking `station`, `geocode` or `agency` all throw; otherwise
      there is one point per item, in order. */
  function AdaptRain(reply: Fetch<Envelope>): (r: Result<seq<RainPoint>>)
    ensures r.Ok? <==>
      && reply.Received? && reply.body.data.Some?
      && forall i :: 0 <= i < |reply.body.data.value| ==> ItemReadable(reply.body.data.value[i])
    ensures r.Ok? ==>
      var items := reply.body.data.value;
      |r.value| == |items| && forall i :: 0 <= i < |items| ==> MapItem(items[i]) == Ok(r.value[i])
  {
    match reply
    case Failed => Thrown
    case Received(body) =>
      if body.data.None? then Thrown else Traverse(MapItem, body.data.value)
  }

  /** The placeholders and defaults: a nullish station name (or its `th`) gives `"-"`,
      a nullish basin, `basin_name` or `th` gives `"-"`, a nullish administrative or
      agency name gives `""`; `id`, the coordinates, `rain_24h` and `rainfall_datetime`
      are copied as they are. */
  lemma RainDefaults(item: Item)
    requires ItemReadable(item)
    ensures
      var s := item.station.value;
      var g := item.geocode.value;
      var r := MapItem(item).value;
      && (s.tele_station_name.None? || s.tele_station_name.value.th.None? ==> r.station_name == "-")
      && (s.tele_station_name.Some? && s.tele_station_name.value.th.Some? ==>
            r.station_name == s.tele_station_name.value.th.value)
      && ((item.basin.None? || item.basin.value.basin_name.None? || item.basin.value.basin_name.value.th.None?)
            ==> r.basin == "-")
      && (BasinTh(item.basin).Some? ==> r.basin == BasinTh(item.basin).value)
      && NullishDefault(Th(g.province_name), "", r.province)
      && NullishDefault(Th(g.amphoe_name), "", r.amphoe)
      && NullishDefault(Th(g.tumbon_name), "", r.tumbon)
      && NullishDefault(Th(item.agency.value.agency_name), "", r.agency)
      && r.id == item.id && r.latitude == s.tele_station_lat && r.longitude == s.tele_station_long
      && r.rain_24h == item.rain_24h && r.rainfall_datetime == item.rainfall_datetime
  {
  }

  /** Wraps a string as a localized-name object `{ th: s }`. */
  function Named(s: string): Option<LocalName>
  {
    Some(LocalName(Some(s)))
  }

  /** The provider item that carries every field of `r` explicitly. */
  function ToItem(r: RainPoint): Item
  {
    Item(r.id, Some(Station(r.latitude, r.longitude, Named(r.station_name))),
      r.rain_24h, r.rainfall_datetime,
      Some(Geocode(Named(r.province), Named(r.amphoe), Named(r.tumbon))),
      Some(Agency(Named(r.agency))), Some(Basin(Named(r.basin))))
  }

  /** The mapping is onto: every rain-point list is the result of some reply, namely
      the one that lists its `ToItem` images. (It is not one-to-one: a nullish name and
      its placeholder map alike.) */
  lemma AdaptRainRoundTrip(rs: seq<RainPoint>)
    ensures AdaptRain(Received(Envelope(Some(seq(|rs|, i requires 0 <= i < |rs| => ToItem(rs[i])))))) == Ok(rs)
  {
    var items := seq(|rs|, i requires 0 <= i < |rs| => ToItem(rs[i]));
    assert forall i :: 0 <= i < |items| ==> MapItem(items[i]) == Ok(rs[i]);
    var r := AdaptRain(Received(Envelope(Some(items))));
    assert r.value == rs;
  }
}
