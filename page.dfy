/** The view-state controller: the `HomePage` component's state, its `fetchData`
    effect and its event handlers (app/page.tsx). */
module Page {
  import opened Json
  import opened Hotspots
  import opened Rain
  import opened Facets

  /** The `"hotspot" | "flood"` selector. */
  datatype DataType = HotspotData | FloodData

  /** What the map component is given: `points={dataType === "hotspot" ? hotspots : filteredRain}`. */
  datatype Points = HotspotPoints(hotspots: seq<Hotspot>) | RainPoints(rains: seq<RainPoint>)

  /** `process.env.NEXT_PUBLIC_API_KEY || ""`: an unset variable gives `""`, and an
      empty one gives `""` too, since `"" || ""` is `""`. */
  function ApiKey(env: Option<string>): string
  {
    match env
    case None => ""
    case Some(key) => key
  }

  /** Whether the adapter of the active kind produces a list for its reply. */
  predicate ActiveSucceeds(kind: DataType, hotspotReply: Fetch<Collection>, floodReply: Fetch<Envelope>)
  {
    if kind == HotspotData then AdaptHotspots(hotspotReply).Ok? else AdaptRain(floodReply).Ok?
  }

  /** The pair `(hotspots, rains)` once `fetchData` has run for `kind`, starting from
      `hs` and `rs`: the active kind's list is replaced by its adapter's result and the
      other one is kept; the shared `catch` empties both. */
  function AfterFetch(kind: DataType, hs: seq<Hotspot>, rs: seq<RainPoint>,
                      hotspotReply: Fetch<Collection>, floodReply: Fetch<Envelope>)
    : (r: (seq<Hotspot>, seq<RainPoint>))
    ensures !ActiveSucceeds(kind, hotspotReply, floodReply) ==> r == ([], [])
    ensures ActiveSucceeds(kind, hotspotReply, floodReply) ==>
      if kind == HotspotData then r == (AdaptHotspots(hotspotReply).value, rs)
      else r == (hs, AdaptRain(floodReply).value)
    ensures kind == HotspotData ==> r.1 == rs || r.1 == []
    ensures kind == FloodData ==> r.0 == hs || r.0 == []
  {
    match kind
    case HotspotData =>
      (match AdaptHotspots(hotspotReply)
       case Ok(mapped) => (mapped, rs)
       case Thrown => ([], []))
    case FloodData =>
      (match AdaptRain(floodReply)
       case Ok(mapped) => (hs, mapped)
       case Thrown => ([], []))
  }

  class HomePage {
    var dataType: DataType
    var hotspots: seq<Hotspot>
    var rains: seq<RainPoint>
    var selectedProvince: string
    var apiKey: string
    /** The effect's dependency list `[dataType, apiKey]` as of its last run; `None`
        before the effect has run for the first render. */
    var lastDeps: Option<(DataType, string)>
    /** The provider records the two lists were mapped from. */
    ghost var hotspotSource: seq<Feature>
    ghost var rainSource: seq<Item>

    /** Each stored point is the mapping of the provider record at the same position:
        no record was dropped, merged or reordered. */
    ghost predicate Valid()
      reads this
    {
      && |hotspots| == |hotspotSource|
      && (forall i :: 0 <= i < |hotspots| ==> MapFeature(hotspotSource[i]) == Ok(hotspots[i]))
      && |rains| == |rainSource|
      && (forall i :: 0 <= i < |rains| ==> MapItem(rainSource[i]) == Ok(rains[i]))
    }

    /** The first render: the `useState` initial values. */
    constructor (env: Option<string>)
      ensures Valid()
      ensures dataType == HotspotData && hotspots == [] && rains == [] && selectedProvince == ALL
      ensures apiKey == ApiKey(env) && lastDeps == None
    {
      dataType := HotspotData;
      hotspots := [];
      rains := [];
      selectedProvince := ALL;
      apiKey := ApiKey(env);
      lastDeps := None;
      hotspotSource := [];
      rainSource := [];
    }

    /** A re-render reads the environment again; nothing else changes. */
    method Render(env: Option<string>)
      requires Valid()
      modifies this`apiKey
      ensures Valid()
      ensures apiKey == ApiKey(env)
    {
      apiKey := ApiKey(env);
    }

    /** The dependency list differs from the one of the last effect run, so React runs
        the effect after this render. */
    predicate EffectPending()
      reads this
    {
      lastDeps != Some((dataType, apiKey))
    }

    /** `fetchData`, run to completion: the reply of the provider of the active kind
        decides the new lists; the reply of the other provider is never looked at. */
    method FetchData(hotspotReply: Fetch<Collection>, floodReply: Fetch<Envelope>)
      requires Valid()
      modifies this`hotspots, this`rains, this`hotspotSource, this`rainSource
      ensures Valid()
      ensures (hotspots, rains) == AfterFetch(dataType, old(hotspots), old(rains), hotspotReply, floodReply)
    {
      if dataType == HotspotData {
        match AdaptHotspots(hotspotReply)
        case Ok(mapped) =>
          hotspots := mapped;
          hotspotSource := hotspotReply.body.features.value;
        case Thrown =>
          hotspots, rains := [], [];
          hotspotSource, rainSource := [], [];
      } else {
        match AdaptRain(floodReply)
        case Ok(mapped) =>
          rains := mapped;
          rainSource := floodReply.body.data.value;
        case Thrown =>
          hotspots, rains := [], [];
          hotspotSource, rainSource := [], [];
      }
    }

    /** The `useEffect` with dependency list `[dataType, apiKey]`: it fetches exactly
        when a dependency changed since its last run (or on the first render). */
    method RunEffect(hotspotReply: Fetch<Collection>, floodReply: Fetch<Envelope>) returns (fetched: bool)
      requires Valid()
      modifies this`hotspots, this`rains, this`hotspotSource, this`rainSource, this`lastDeps
      ensures Valid()
      ensures fetched == old(EffectPending())
      ensures lastDeps == Some((dataType, apiKey)) && !EffectPending()
      ensures fetched ==>
        (hotspots, rains) == AfterFetch(dataType, old(hotspots), old(rains), hotspotReply, floodReply)
      ensures !fetched ==> hotspots == old(hotspots) && rains == old(rains)
    {
      fetched := EffectPending();
      if fetched {
        lastDeps := Some((dataType, apiKey));
        FetchData(hotspotReply, floodReply);
      }
    }

    /** The two data-type buttons: `setDataType`. The province is not reset. */
    method SetDataType(kind: DataType)
      requires Valid()
      modifies this`dataType
      ensures Valid()
      ensures dataType == kind
    {
      dataType := kind;
    }

    /** The province `select`: `setSelectedProvince`. Nothing else changes. */
    method SelectProvince(province: string)
      requires Valid()
      modifies this`selectedProvince
      ensures Valid()
      ensures selectedProvince == province
    {
      selectedProvince := province;
    }

    /** The options of the province `select`: the sentinel, then each non-empty
        province of the stored points once, in the order of first occurrence. */
    function ProvinceOptions(): (options: seq<string>)
      reads this
      ensures |options| > 0 && options[0] == ALL
      ensures forall k :: 0 <= k < |rains| && rains[k].province != "" ==> rains[k].province in options
      ensures NoDuplicates(options[1..]) && InFirstOccurrenceOrder(rains, options[1..])
      ensures forall k :: 1 <= k < |options| ==>
        options[k] != "" && exists j :: 0 <= j < |rains| && rains[j].province == options[k]
    {
      ProvincesComplete(rains);
      ProvincesSound(rains);
      ProvincesNonEmpty(rains);
      ProvincesDistinct(rains);
      ProvincesOrdered(rains);
      var options := [ALL] + Provinces(rains);
      assert options[1..] == Provinces(rains);
      assert forall k :: 1 <= k < |options| ==> options[k] == Provinces(rains)[k - 1];
      assert forall k :: 1 <= k < |options| ==> rains[FirstIndex(rains, options[k])].province == options[k];
      options
    }

    /** What the map shows: the hotspots for the hotspot kind, otherwise the rain points
        of the selected province (all of them for the sentinel). */
    function Shown(): (r: Points)
      reads this
      ensures dataType == HotspotData ==> r == HotspotPoints(hotspots)
      ensures dataType == FloodData ==>
        (r.RainPoints? &&
         forall x :: x in r.rains <==> x in rains && (selectedProvince == ALL || x.province == selectedProvince))
    {
      if dataType == HotspotData then HotspotPoints(hotspots)
      else RainPoints(FilterRain(rains, selectedProvince))
    }
  }
}
