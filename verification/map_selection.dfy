/** The map's selection logic: a geocoder result or a click on a country
    becomes the selected country and city, a single marker is created once
    and moved afterwards, and the camera flies to the place at a zoom that
    depends on what was selected. Rendering and the map library are left
    out; events arrive as values. */
module MapSelection {
  import opened Wrappers

  /** A longitude/latitude pair, passed through unchanged. */
  datatype LngLat = LngLat(lng: int, lat: int)

  /** One entry of a geocoder result's `context` list. */
  datatype ContextEntry = ContextEntry(id: string, text: string)

  /** A geocoder `result` event; `context` may be absent. */
  datatype GeocodeResult = GeocodeResult(placeType: seq<string>, text: string,
                                         context: Option<seq<ContextEntry>>, center: LngLat)

  /** A rendered country feature; `name_en` may be missing. */
  datatype Feature = Feature(nameEn: Option<string>)

  /** A click on the country layer; a missing feature list reads as empty. */
  datatype Click = Click(features: seq<Feature>, at: LngLat)

  datatype Camera = Camera(center: LngLat, zoom: int)

  /** Selected country and city, the marker's position (if one exists), how
      many markers were ever created, and the camera. */
  datatype MapState = MapState(country: Option<string>, city: Option<string>,
                               marker: Option<LngLat>, markersCreated: nat, camera: Camera)

  /** The map as created: nothing selected, no marker, globe at zoom 2. */
  const Initial := MapState(None, None, None, 0, Camera(LngLat(0, 0), 2))

  const CountryZoom := 5
  const PlaceZoom := 10

  predicate StartsWith(s: string, prefix: string) {
    |prefix| <= |s| && s[..|prefix|] == prefix
  }

  /** Entry `i` is the first whose id starts with `country`. */
  predicate FirstCountryAt(ctx: seq<ContextEntry>, i: int) {
    && 0 <= i < |ctx| && StartsWith(ctx[i].id, "country")
    && forall j :: 0 <= j < i ==> !StartsWith(ctx[j].id, "country")
  }

  /** `context.find(c => c.id.startsWith('country'))`, as an index. */
  function FindCountry(ctx: seq<ContextEntry>): (r: Option<nat>)
    ensures r.Some? ==> FirstCountryAt(ctx, r.value)
    ensures r.None? ==> forall j :: 0 <= j < |ctx| ==> !StartsWith(ctx[j].id, "country")
    decreases |ctx|
  {
    if ctx == [] then None
    else if StartsWith(ctx[0].id, "country") then Some(0)
    else
      match FindCountry(ctx[1..])
      case None => None
      case Some(i) => Some(i + 1)
  }

  /** `result.context?.find(…)?.text || null`: the text of the first country
      entry, where an empty text reads as null. */
  function CountryOfPlace(context: Option<seq<ContextEntry>>): (r: Option<string>)
    ensures r.Some? <==>
      context.Some? && exists i :: FirstCountryAt(context.value, i) && context.value[i].text != ""
    ensures forall i :: r.Some? && FirstCountryAt(context.value, i) ==> r.value == context.value[i].text
  {
    if context.None? then None
    else match FindCountry(context.value)
      case None => None
      case Some(i) => if context.value[i].text != "" then Some(context.value[i].text) else None
  }

  /** The first entry of `place_type`, if any. */
  function Kind(res: GeocodeResult): Option<string> {
    if |res.placeType| > 0 then Some(res.placeType[0]) else None
  }

  /** The marker rule: move the existing marker, or create the first one. */
  function PlaceMarker(st: MapState, at: LngLat): (r: MapState)
    ensures r.marker == Some(at)
    ensures r.markersCreated == if st.marker.None? then st.markersCreated + 1 else st.markersCreated
    ensures r.country == st.country && r.city == st.city && r.camera == st.camera
  {
    st.(marker := Some(at), markersCreated := if st.marker.None? then st.markersCreated + 1 else st.markersCreated)
  }

  /** The geocoder's `result` handler. */
  function OnResult(st: MapState, res: GeocodeResult): (r: MapState)
    ensures Kind(res) == Some("country") ==> r.country == Some(res.text) && r.city.None?
    ensures Kind(res) == Some("place") ==>
      r.city == Some(res.text) && r.country == CountryOfPlace(res.context)
    ensures Kind(res) != Some("country") && Kind(res) != Some("place") ==>
      r.country == st.country && r.city == st.city
    // the marker and camera follow every result, whatever its kind
    ensures r.marker == Some(res.center)
    ensures r.camera == Camera(res.center, if Kind(res) == Some("country") then CountryZoom else PlaceZoom)
  {
    var selected :=
      if Kind(res) == Some("country") then st.(country := Some(res.text), city := None)
      else if Kind(res) == Some("place") then st.(city := Some(res.text), country := CountryOfPlace(res.context))
      else st;
    var marked := PlaceMarker(selected, res.center);
    marked.(camera := Camera(res.center, if Kind(res) == Some("country") then CountryZoom else PlaceZoom))
  }

  /** The `click` handler on the country layer. */
  function OnClick(st: MapState, click: Click): (r: MapState)
    ensures click.features == [] ==> r == st
    ensures click.features != [] ==>
      r.country == click.features[0].nameEn && r.city.None?
      && r.marker == Some(click.at) && r.camera == Camera(click.at, CountryZoom)
  {
    if click.features == [] then st
    else
      var selected := st.(country := click.features[0].nameEn, city := None);
      PlaceMarker(selected, click.at).(camera := Camera(click.at, CountryZoom))
  }

  /** The card's close button clears the selected country only. */
  function CloseCard(st: MapState): (r: MapState)
    ensures r.country.None?
    ensures r.city == st.city && r.marker == st.marker && r.camera == st.camera
  {
    st.(country := None)
  }

  /** The country card is shown while a non-empty country is selected. */
  predicate CardShown(st: MapState) {
    st.country.Some? && st.country.value != ""
  }

  datatype Event = Search(res: GeocodeResult) | Tap(click: Click) | Close

  function Step(st: MapState, e: Event): MapState {
    match e
    case Search(res) => OnResult(st, res)
    case Tap(click) => OnClick(st, click)
    case Close => CloseCard(st)
  }

  function Trace(st: MapState, events: seq<Event>): MapState
    decreases |events|
  {
    if events == [] then st else Trace(Step(st, events[0]), events[1..])
  }

  /** A marker exists exactly when one was created, and at most one ever is. */
  predicate SingleMarker(st: MapState) {
    st.markersCreated == if st.marker.Some? then 1 else 0
  }

  /** From the initial map, any sequence of searches, clicks and closes
      creates at most one marker: it is created by the first selection and
      only moved afterwards. */
  lemma {:induction false} AtMostOneMarker(st: MapState, events: seq<Event>)
    requires SingleMarker(st)
    ensures SingleMarker(Trace(st, events)) && Trace(st, events).markersCreated <= 1
    ensures st.marker.Some? ==> Trace(st, events).marker.Some?
    decreases |events|
  {
    if events != [] {
      var next := Step(st, events[0]);
      assert SingleMarker(next);
      AtMostOneMarker(next, events[1..]);
    }
  }

  /** Closing the card hides it, whatever was selected. */
  lemma CloseHidesCard(st: MapState)
    ensures !CardShown(CloseCard(st))
  {
  }
}
