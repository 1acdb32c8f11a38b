/** The country card's tab machine: which tab is active, the `dataLoaded`
    flags that decide whether selecting a tab loads its section, the
    country-change reset and the refresh button. Section data comes from the
    country-data cache, whose network answers are oracle parameters. */
module CountryCard {
  import opened Wrappers
  import opened Json
  import opened CountryData

  /** The values of the five tab triggers. */
  const TabNames: set<string> := {"living", "immigration", "quality", "work", "culture"}

  /** The section a tab loads; any other tab name loads nothing. */
  function TabSection(tab: string): (r: Option<Section>)
    ensures r.Some? <==> tab in TabNames
    ensures r.Some? ==> (tab == "immigration" <==> r.value == Legal)
    ensures r.Some? && tab != "immigration" && tab != "living" ==> SectionName(r.value) == tab
    ensures tab == "living" ==> r == Some(Cities)
  {
    if tab == "immigration" then Some(Legal)
    else if tab == "quality" then Some(Quality)
    else if tab == "work" then Some(Work)
    else if tab == "culture" then Some(Culture)
    else if tab == "living" then Some(Cities)
    else None
  }

  /** The key the refresh handler marks as loaded:
      `activeTab === 'immigration' ? 'legal' : activeTab`. */
  function RefreshKey(tab: string): string {
    if tab == "immigration" then "legal" else tab
  }

  /** `dataLoaded`, an object whose keys start as the five section names. */
  type Flags = map<string, bool>

  /** Reading `dataLoaded.<key>`: a missing key reads as `undefined`. */
  predicate Flag(f: Flags, key: string) {
    key in f && f[key]
  }

  const AllFalse: Flags :=
    map["legal" := false, "quality" := false, "work" := false, "culture" := false, "cities" := false]

  /** The card's state: the country shown, the active tab, the flags, the
      tab spinner, and the section data on display (`legalData` …
      `citiesData`, each `null` until loaded). */
  datatype Card = Card(country: string, activeTab: string, loaded: Flags, tabLoading: bool, shown: Entry)

  /** The card as first rendered for `country`. */
  function Initial(country: string): (c: Card)
    ensures c.activeTab == "living" && !c.tabLoading && c.shown == EmptyEntry
    ensures c.loaded.Keys == set s: Section :: SectionName(s)
    ensures forall k :: !Flag(c.loaded, k)
  {
    assert forall k :: k in AllFalse.Keys <==> exists s: Section :: SectionName(s) == k by {
      assert SectionName(Legal) == "legal" && SectionName(Quality) == "quality";
      assert SectionName(Work) == "work" && SectionName(Culture) == "culture";
      assert SectionName(Cities) == "cities";
    }
    Card(country, "living", AllFalse, false, EmptyEntry)
  }

  /** One handler run: the new card and cache, the request the cache sent
      (if any), and the successive values written to `isTabLoading`. */
  datatype CardStep = CardStep(card: Card, cache: Cache, request: Option<Request>, spinner: seq<bool>)

  /** The load effect for the active tab. It fetches through the cache only
      when the tab's flag is false; on success it shows the data and sets
      that one flag; on failure the error is logged and nothing changes. */
  function LoadTab(card: Card, cache: Cache, fetch: Fetch): (r: CardStep)
    // the spinner goes on and comes off on every path
    ensures r.spinner == [true, false] && !r.card.tabLoading
    // a request is made only for a known tab whose flag is false
    ensures r.request.Some? ==>
      TabSection(card.activeTab).Some?
      && !Flag(card.loaded, SectionName(TabSection(card.activeTab).value))
    // a set flag or an unknown tab leaves card and cache alone
    ensures (TabSection(card.activeTab).None?
             || Flag(card.loaded, SectionName(TabSection(card.activeTab).value))) ==>
      r.cache == cache && r.card == card.(tabLoading := false)
    // only the active tab's flag can change; it becomes true exactly when the
    // getter resolves, and the resolved value is put on display
    ensures TabSection(card.activeTab).Some? ==>
      var s := TabSection(card.activeTab).value;
      var key := SectionName(s);
      var o := Expected(cache, card.country, s, fetch);
      && (forall k :: k != key ==>
            (k in r.card.loaded <==> k in card.loaded)
            && (k in card.loaded ==> r.card.loaded[k] == card.loaded[k]))
      && (Flag(r.card.loaded, key) <==> Flag(card.loaded, key) || o.Returned?)
      && (!Flag(card.loaded, key) && o.Returned? ==> r.card.shown.Slot(s) == Some(o.value))
    // an unloaded known tab goes through the ordinary cache lookup, and only
    // that section's display can change
    ensures TabSection(card.activeTab).Some?
            && !Flag(card.loaded, SectionName(TabSection(card.activeTab).value)) ==>
      var s := TabSection(card.activeTab).value;
      var st := Get(cache, card.country, s, fetch);
      var o := Expected(cache, card.country, s, fetch);
      && r.cache == st.cache && r.request == st.request
      && r.card.shown == (if o.Returned? then card.shown.With(s, o.value) else card.shown)
    ensures r.card.country == card.country && r.card.activeTab == card.activeTab
  {
    var idle := card.(tabLoading := false);
    match TabSection(card.activeTab)
    case None => CardStep(idle, cache, None, [true, false])
    case Some(s) =>
      var key := SectionName(s);
      if Flag(card.loaded, key) then CardStep(idle, cache, None, [true, false])
      else
        var st := Get(cache, card.country, s, fetch);
        match st.outcome
        case Returned(v) =>
          CardStep(idle.(shown := card.shown.With(s, v), loaded := card.loaded[key := true]),
                   st.cache, st.request, [true, false])
        case Thrown(_) => CardStep(idle, st.cache, st.request, [true, false])
  }

  /** The reset effect: a new `country` prop clears all five flags. The
      active tab and the data on display are kept. */
  function ChangeCountry(card: Card, country: string): (r: Card)
    ensures r.country == country
    ensures forall s :: !Flag(r.loaded, SectionName(s))
    ensures forall k :: k in r.loaded ==> !r.loaded[k]
    ensures r.activeTab == card.activeTab && r.shown == card.shown && r.tabLoading == card.tabLoading
  {
    card.(country := country, loaded := AllFalse)
  }

  /** A tab trigger: triggers are disabled while the card or the cache is
      loading; otherwise the active tab becomes `tab`. */
  function SelectTab(card: Card, cache: Cache, tab: string): (r: Card)
    ensures card.tabLoading || cache.isLoading ==> r == card
    ensures !card.tabLoading && !cache.isLoading ==> r.activeTab == tab
    ensures r == card.(activeTab := r.activeTab)
  {
    if card.tabLoading || cache.isLoading then card else card.(activeTab := tab)
  }

  /** The refresh button. It is disabled while loading. The handler calls the
      getter of the active tab with an extra `true`, which the getter does
      not take, so a cached section is returned as is. On success it shows
      the value and marks the key `RefreshKey(activeTab)`, which is `living`,
      not `cities`, on the living tab; an unknown tab only marks its own
      name. On failure no flag changes. */
  function Refresh(card: Card, cache: Cache, fetch: Fetch): (r: CardStep)
    ensures card.tabLoading || cache.isLoading ==> r == CardStep(card, cache, None, [])
    ensures !card.tabLoading && !cache.isLoading ==>
      r.spinner == [true, false] && !r.card.tabLoading
      && r.card.country == card.country && r.card.activeTab == card.activeTab
    // the only flag that may change is the computed key, and only to true
    ensures forall k :: k != RefreshKey(card.activeTab) ==>
      (k in r.card.loaded <==> k in card.loaded)
      && (k in card.loaded ==> r.card.loaded[k] == card.loaded[k])
    // an unknown tab makes no request yet still marks its own name
    ensures !card.tabLoading && !cache.isLoading && TabSection(card.activeTab).None? ==>
      r.request.None? && r.cache == cache && Flag(r.card.loaded, card.activeTab)
    // for a known tab the section goes through the ordinary cache lookup
    ensures !card.tabLoading && !cache.isLoading && TabSection(card.activeTab).Some? ==>
      var s := TabSection(card.activeTab).value;
      var o := Expected(cache, card.country, s, fetch);
      && (o.Returned? ==> r.card.shown == card.shown.With(s, o.value)
                          && Flag(r.card.loaded, RefreshKey(card.activeTab)))
      && (o.Thrown? ==> r.card.loaded == card.loaded && r.card.shown == card.shown)
      && r.cache == Get(cache, card.country, s, fetch).cache
      && r.request == Get(cache, card.country, s, fetch).request
  {
    if card.tabLoading || cache.isLoading then CardStep(card, cache, None, [])
    else
      var idle := card.(tabLoading := false);
      var key := RefreshKey(card.activeTab);
      match TabSection(card.activeTab)
      case None => CardStep(idle.(loaded := card.loaded[key := true]), cache, None, [true, false])
      case Some(s) =>
        var st := Get(cache, card.country, s, fetch);
        match st.outcome
        case Returned(v) =>
          CardStep(idle.(shown := card.shown.With(s, v), loaded := card.loaded[key := true]),
                   st.cache, st.request, [true, false])
        case Thrown(_) => CardStep(idle, st.cache, st.request, [true, false])
  }

  /** Refreshing a tab whose section is cached makes no request and shows
      the cached value: there is no forced refresh. */
  lemma RefreshOfCachedReturnsCached(card: Card, cache: Cache, fetch: Fetch)
    requires !card.tabLoading && !cache.isLoading
    requires TabSection(card.activeTab).Some?
    requires IsHit(cache, card.country, TabSection(card.activeTab).value)
    ensures var s := TabSection(card.activeTab).value;
      var r := Refresh(card, cache, fetch);
      r.request.None? && r.cache == cache
      && r.card.shown.Slot(s) == EntryOf(cache, card.country).Slot(s)
  {
  }

  /** Refreshing the living tab marks `living` and leaves `cities` alone. */
  lemma RefreshLivingMarksLiving(card: Card, cache: Cache, fetch: Fetch)
    requires card.activeTab == "living" && !card.tabLoading && !cache.isLoading
    requires Expected(cache, card.country, Cities, fetch).Returned?
    ensures var r := Refresh(card, cache, fetch).card;
      Flag(r.loaded, "living")
      && ("cities" in r.loaded <==> "cities" in card.loaded)
      && ("cities" in card.loaded ==> r.loaded["cities"] == card.loaded["cities"])
  {
  }

  /** Loading a tab a second time after it resolved makes no request and
      changes nothing but the spinner. */
  lemma {:induction false} LoadIsIdempotent(card: Card, cache: Cache, f1: Fetch, f2: Fetch)
    requires TabSection(card.activeTab).Some?
    requires Expected(cache, card.country, TabSection(card.activeTab).value, f1).Returned?
    ensures var r1 := LoadTab(card, cache, f1);
      var r2 := LoadTab(r1.card, r1.cache, f2);
      r2.request.None? && r2.card == r1.card && r2.cache == r1.cache
  {
    var r1 := LoadTab(card, cache, f1);
    assert Flag(r1.card.loaded, SectionName(TabSection(card.activeTab).value));
  }

  /** The card and the cache agree: every section whose flag is set is on
      display, with the value the cache holds for the card's country; and
      the active tab is one of the triggers. */
  ghost predicate Coherent(card: Card, cache: Cache) {
    && card.activeTab in TabNames
    && forall s :: Flag(card.loaded, SectionName(s)) ==>
         card.shown.Slot(s).Some? && EntryOf(cache, card.country).Slot(s) == card.shown.Slot(s)
  }

  /** The events the card reacts to. */
  datatype Event = Select(tab: string) | Load(fetch: Fetch) | Reload(fetch: Fetch) | NewCountry(country: string)

  function Apply(card: Card, cache: Cache, e: Event): (Card, Cache) {
    match e
    case Select(tab) => (SelectTab(card, cache, tab), cache)
    case Load(f) => var r := LoadTab(card, cache, f); (r.card, r.cache)
    case Reload(f) => var r := Refresh(card, cache, f); (r.card, r.cache)
    case NewCountry(c) => (ChangeCountry(card, c), cache)
  }

  /** Triggers only ever select one of the five tab names. */
  predicate FromTriggers(e: Event) {
    e.Select? ==> e.tab in TabNames
  }

  /** A trigger only changes the active tab, to another trigger's value. */
  lemma SelectKeepsCoherent(card: Card, cache: Cache, tab: string)
    requires Coherent(card, cache) && tab in TabNames
    ensures Coherent(SelectTab(card, cache, tab), cache)
  {
    var r := SelectTab(card, cache, tab);
    assert r.loaded == card.loaded && r.shown == card.shown && r.country == card.country;
  }

  /** Loading sets a flag only together with the displayed and cached value. */
  lemma LoadKeepsCoherent(card: Card, cache: Cache, f: Fetch)
    requires Coherent(card, cache)
    ensures Coherent(LoadTab(card, cache, f).card, LoadTab(card, cache, f).cache)
  {
    var r := LoadTab(card, cache, f);
    match TabSection(card.activeTab)
    case None =>
      // unreachable: the active tab of a coherent card is a trigger name
    case Some(s) =>
      if Flag(card.loaded, SectionName(s)) {
        assert r.card == card.(tabLoading := false) && r.cache == cache;
      } else {
        var st := Get(cache, card.country, s, f);
        assert r.cache == st.cache;
        forall t | Flag(r.card.loaded, SectionName(t))
          ensures r.card.shown.Slot(t).Some? && EntryOf(r.cache, r.card.country).Slot(t) == r.card.shown.Slot(t)
        {
          if t != s {
            SectionNameInjective(s, t);
          }
        }
      }
  }

  /** Refreshing marks a section's key only together with its displayed and
      cached value; the living tab's key `living` is not a section name. */
  lemma ReloadKeepsCoherent(card: Card, cache: Cache, f: Fetch)
    requires Coherent(card, cache)
    ensures Coherent(Refresh(card, cache, f).card, Refresh(card, cache, f).cache)
  {
    var r := Refresh(card, cache, f);
    if !card.tabLoading && !cache.isLoading {
      match TabSection(card.activeTab)
      case None =>
        // unreachable: the active tab of a coherent card is a trigger name
      case Some(s) =>
        var st := Get(cache, card.country, s, f);
        assert r.cache == st.cache;
        forall t | Flag(r.card.loaded, SectionName(t))
          ensures r.card.shown.Slot(t).Some? && EntryOf(r.cache, r.card.country).Slot(t) == r.card.shown.Slot(t)
        {
          if t != s {
            SectionNameInjective(s, t);
          }
        }
    }
  }

  /** A new country clears every flag, so nothing is claimed about it. */
  lemma NewCountryKeepsCoherent(card: Card, cache: Cache, country: string)
    requires Coherent(card, cache)
    ensures Coherent(ChangeCountry(card, country), cache)
  {
  }

  lemma ApplyKeepsCoherent(card: Card, cache: Cache, e: Event)
    requires Coherent(card, cache) && FromTriggers(e)
    ensures Coherent(Apply(card, cache, e).0, Apply(card, cache, e).1)
  {
    match e
    case Select(tab) => SelectKeepsCoherent(card, cache, tab);
    case Load(f) => LoadKeepsCoherent(card, cache, f);
    case Reload(f) => ReloadKeepsCoherent(card, cache, f);
    case NewCountry(c) => NewCountryKeepsCoherent(card, cache, c);
  }

  function Run(card: Card, cache: Cache, events: seq<Event>): (Card, Cache)
    decreases |events|
  {
    if events == [] then (card, cache)
    else var next := Apply(card, cache, events[0]); Run(next.0, next.1, events[1..])
  }

  /** From the initial card and any cache, every sequence of trigger events
      keeps the loaded flags truthful about what is displayed and cached. */
  lemma {:induction false} RunKeepsCoherent(card: Card, cache: Cache, events: seq<Event>)
    requires Coherent(card, cache)
    requires forall i :: 0 <= i < |events| ==> FromTriggers(events[i])
    ensures Coherent(Run(card, cache, events).0, Run(card, cache, events).1)
    decreases |events|
  {
    if events != [] {
      ApplyKeepsCoherent(card, cache, events[0]);
      var next := Apply(card, cache, events[0]);
      RunKeepsCoherent(next.0, next.1, events[1..]);
    }
  }

  lemma InitialIsCoherent(country: string, cache: Cache)
    ensures Coherent(Initial(country), cache)
  {
  }
}
