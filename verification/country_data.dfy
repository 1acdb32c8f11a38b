/** The client-side country-data cache: a map from country name to an entry
    of five optional sections, plus the shared `isLoading` flag. Each getter
    answers from the cache when the slot is truthy and otherwise posts
    `{country, section}` to the country-data route, stores whatever body
    comes back and returns it. The network call is an oracle parameter. */
module CountryData {
  import opened Wrappers
  import opened Json

  datatype Section = Legal | Quality | Work | Culture | Cities

  /** The five sections in the order `getAllCountryData` requests them. */
  const AllSections: seq<Section> := [Legal, Quality, Work, Culture, Cities]

  /** The literal `section` value each getter sends. */
  function SectionName(s: Section): string {
    match s
    case Legal => "legal"
    case Quality => "quality"
    case Work => "work"
    case Culture => "culture"
    case Cities => "cities"
  }

  /** One country's record of five optional sections. */
  datatype Entry = Entry(legal: Option<Json>, quality: Option<Json>, work: Option<Json>,
                         culture: Option<Json>, cities: Option<Json>)
  {
    function Slot(s: Section): Option<Json> {
      match s
      case Legal => legal
      case Quality => quality
      case Work => work
      case Culture => culture
      case Cities => cities
    }

    /** `{...entry, [s]: v}`: the entry with one slot overwritten. */
    function With(s: Section, v: Json): (e: Entry)
      ensures e.Slot(s) == Some(v)
      ensures forall t :: t != s ==> e.Slot(t) == Slot(t)
    {
      match s
      case Legal => this.(legal := Some(v))
      case Quality => this.(quality := Some(v))
      case Work => this.(work := Some(v))
      case Culture => this.(culture := Some(v))
      case Cities => this.(cities := Some(v))
    }
  }

  /** Spreading `undefined` yields an object with no sections. */
  const EmptyEntry := Entry(None, None, None, None, None)

  datatype Cache = Cache(data: map<string, Entry>, isLoading: bool)

  /** The provider's initial state: `useState({})` and `useState(false)`. */
  const InitialCache := Cache(map[], false)

  /** `countryData[country]`, reading an absent country as an empty entry. */
  function EntryOf(c: Cache, country: string): Entry {
    if country in c.data then c.data[country] else EmptyEntry
  }

  /** The guard `countryData[country]?.<section>`: the slot is truthy. */
  predicate IsHit(c: Cache, country: string, s: Section) {
    TruthyOpt(EntryOf(c, country).Slot(s))
  }

  /** Every country other than `country` has the same entry (or none) in both. */
  ghost predicate OthersUnchanged(before: map<string, Entry>, after: map<string, Entry>, country: string) {
    forall k :: k != country ==>
      (k in after <==> k in before) && (k in before ==> after[k] == before[k])
  }

  /** The JSON body a getter posts to the route. */
  datatype Request = Request(country: string, section: string)

  /** What `fetch` followed by `response.json()` produced: a body with its
      HTTP status, or an exception (network failure or unreadable body). */
  datatype Fetch = Fetched(status: int, body: Json) | FetchFailed(error: string)

  /** A getter either resolves with a value or rethrows. */
  datatype Outcome = Returned(value: Json) | Thrown(error: string)

  /** The result of one getter call: the new cache, the promise's outcome,
      the request sent (if any) and the successive values written to
      `isLoading`. */
  datatype Step = Step(cache: Cache, outcome: Outcome, request: Option<Request>, loadingWrites: seq<bool>)

  /** `getLegalData`, `getQualityData`, `getWorkData`, `getCultureData` and
      `getCitiesData`, which differ only in the section they serve. `fetch`
      is consulted only on a miss. */
  function Get(c: Cache, country: string, s: Section, fetch: Fetch): (r: Step)
    // a hit answers from the cache and touches nothing
    ensures IsHit(c, country, s) ==>
      r.request.None? && r.cache == c && r.loadingWrites == []
      && r.outcome == Returned(EntryOf(c, country).Slot(s).value)
    // a miss posts this country and this section, raising then clearing the flag
    ensures !IsHit(c, country, s) ==>
      r.request == Some(Request(country, SectionName(s)))
      && r.loadingWrites == [true, false] && !r.cache.isLoading
    // only the requested slot of the requested country may change
    ensures OthersUnchanged(c.data, r.cache.data, country)
    ensures forall t :: t != s ==> EntryOf(r.cache, country).Slot(t) == EntryOf(c, country).Slot(t)
    // a resolved miss stores exactly the value it returns
    ensures !IsHit(c, country, s) && r.outcome.Returned? ==>
      EntryOf(r.cache, country).Slot(s) == Some(r.outcome.value)
    // a miss whose fetch produced a body resolves with that body, whatever the status
    ensures !IsHit(c, country, s) && fetch.Fetched? ==> r.outcome == Returned(fetch.body)
    // a failed fetch leaves the map alone and rethrows
    ensures !IsHit(c, country, s) && fetch.FetchFailed? ==>
      r.cache.data == c.data && r.outcome == Thrown(fetch.error)
  {
    if IsHit(c, country, s) then
      Step(c, Returned(EntryOf(c, country).Slot(s).value), None, [])
    else
      var req := Some(Request(country, SectionName(s)));
      match fetch
      case Fetched(_, body) =>
        var e := EntryOf(c, country).With(s, body);
        Step(Cache(c.data[country := e], false), Returned(body), req, [true, false])
      case FetchFailed(err) =>
        Step(Cache(c.data, false), Thrown(err), req, [true, false])
  }

  /** A hit does not depend on what the network would have answered. */
  lemma HitIgnoresFetch(c: Cache, country: string, s: Section, f1: Fetch, f2: Fetch)
    requires IsHit(c, country, s)
    ensures Get(c, country, s, f1) == Get(c, country, s, f2)
  {
  }

  /** The HTTP status is never inspected: a 400 body is stored and returned
      exactly as a 200 body would be. */
  lemma StatusIgnored(c: Cache, country: string, s: Section, st1: int, st2: int, body: Json)
    ensures Get(c, country, s, Fetched(st1, body)) == Get(c, country, s, Fetched(st2, body))
  {
  }

  /** Once a truthy body has been stored, the next call for the same slot is
      a hit that returns it without a request. */
  lemma {:induction false} StoredTruthyBodyIsHit(c: Cache, country: string, s: Section, status: int, body: Json, next: Fetch)
    requires !IsHit(c, country, s) && Truthy(body)
    ensures var r := Get(c, country, s, Fetched(status, body));
      IsHit(r.cache, country, s)
      && Get(r.cache, country, s, next) == Step(r.cache, Returned(body), None, [])
  {
    var r := Get(c, country, s, Fetched(status, body));
    assert EntryOf(r.cache, country).Slot(s) == Some(body);
  }

  /** A stored falsy body (`null`, `""`, `0`, `false`) is not a hit: the
      next call asks the route again. */
  lemma StoredFalsyBodyIsRefetched(c: Cache, country: string, s: Section, status: int, body: Json, next: Fetch)
    requires !IsHit(c, country, s) && !Truthy(body)
    ensures var r := Get(c, country, s, Fetched(status, body));
      Get(r.cache, country, s, next).request == Some(Request(country, SectionName(s)))
  {
    var r := Get(c, country, s, Fetched(status, body));
    assert EntryOf(r.cache, country).Slot(s) == Some(body);
  }

  /** One getter call with the network's answer for it. */
  datatype Call = Call(country: string, section: Section, fetch: Fetch)

  /** A sequence of getter calls, one after another. */
  function RunCalls(c: Cache, calls: seq<Call>): Cache
    decreases |calls|
  {
    if calls == [] then c
    else RunCalls(Get(c, calls[0].country, calls[0].section, calls[0].fetch).cache, calls[1..])
  }

  /** Getter calls never lose a hit: a slot that is truthy stays unchanged
      whatever calls follow, in any country or section. */
  lemma {:induction false} HitsArePermanent(c: Cache, calls: seq<Call>, country: string, s: Section)
    requires IsHit(c, country, s)
    ensures EntryOf(RunCalls(c, calls), country).Slot(s) == EntryOf(c, country).Slot(s)
    decreases |calls|
  {
    if calls != [] {
      var k := calls[0];
      var c1 := Get(c, k.country, k.section, k.fetch).cache;
      assert EntryOf(c1, country).Slot(s) == EntryOf(c, country).Slot(s) by {
        if k.country != country {
          assert OthersUnchanged(c.data, c1.data, k.country);
        } else if k.section == s {
          assert c1 == c;
        }
      }
      HitsArePermanent(c1, calls[1..], country, s);
    }
  }

  /** The five sections `getAllCountryData` resolves together. */
  datatype AllData = AllData(legal: Json, quality: Json, work: Json, culture: Json, cities: Json)
  {
    function Of(s: Section): Json {
      match s
      case Legal => legal
      case Quality => quality
      case Work => work
      case Culture => culture
      case Cities => cities
    }
  }

  datatype AllOutcome = AllReturned(value: AllData) | AllThrown(error: string)

  datatype AllStep = AllStep(cache: Cache, outcome: AllOutcome, requests: seq<Request>)

  /** What a getter resolves with for section `s` on cache `c`: the cached
      value on a hit, else the fetched body, else the fetch's error.
      `getAllCountryData` judges every section against the cache as it stood
      when it was called. */
  function Expected(c: Cache, country: string, s: Section, fetch: Fetch): Outcome {
    if IsHit(c, country, s) then Returned(EntryOf(c, country).Slot(s).value)
    else if fetch.Fetched? then Returned(fetch.body)
    else Thrown(fetch.error)
  }

  /** The first error among the outcomes, in list order. */
  function FirstError(outs: seq<Outcome>): string
    requires exists i :: 0 <= i < |outs| && outs[i].Thrown?
  {
    if outs[0].Thrown? then outs[0].error else FirstError(outs[1..])
  }

  /** The five getters' outcomes, in the order they are called. */
  function Outcomes(c: Cache, country: string, fetches: Section -> Fetch): (outs: seq<Outcome>)
    ensures |outs| == |AllSections|
    ensures forall i :: 0 <= i < |outs| ==> outs[i] == Expected(c, country, AllSections[i], fetches(AllSections[i]))
  {
    [Expected(c, country, Legal, fetches(Legal)), Expected(c, country, Quality, fetches(Quality)),
     Expected(c, country, Work, fetches(Work)), Expected(c, country, Culture, fetches(Culture)),
     Expected(c, country, Cities, fetches(Cities))]
  }

  /** Every getter resolves. */
  predicate AllResolve(c: Cache, country: string, fetches: Section -> Fetch)
    ensures AllResolve(c, country, fetches) <==> forall s :: Expected(c, country, s, fetches(s)).Returned?
  {
    && Expected(c, country, Legal, fetches(Legal)).Returned?
    && Expected(c, country, Quality, fetches(Quality)).Returned?
    && Expected(c, country, Work, fetches(Work)).Returned?
    && Expected(c, country, Culture, fetches(Culture)).Returned?
    && Expected(c, country, Cities, fetches(Cities)).Returned?
  }

  /** A section's slot after its getter settled with `o`: the resolved
      value, or the old slot when the getter threw. */
  function Resolved(c: Cache, country: string, s: Section, o: Outcome): Option<Json> {
    if o.Returned? then Some(o.value) else EntryOf(c, country).Slot(s)
  }

  /** The entry of `country` once all five getters have settled. */
  function SettledEntry(c: Cache, country: string, fetches: Section -> Fetch): (e: Entry)
    ensures forall s :: e.Slot(s) == Resolved(c, country, s, Expected(c, country, s, fetches(s)))
  {
    Entry(Resolved(c, country, Legal, Expected(c, country, Legal, fetches(Legal))),
          Resolved(c, country, Quality, Expected(c, country, Quality, fetches(Quality))),
          Resolved(c, country, Work, Expected(c, country, Work, fetches(Work))),
          Resolved(c, country, Culture, Expected(c, country, Culture, fetches(Culture))),
          Resolved(c, country, Cities, Expected(c, country, Cities, fetches(Cities))))
  }

  /** `getAllCountryData`: raises `isLoading`, runs the five getters (each
      judging hits against the cache as it stood when it was called), and on
      success overwrites the whole entry of `country` with the five values
      and returns them; on failure the sections that did resolve stay
      written and the first error is rethrown. `isLoading` ends false. */
  function GetAll(c: Cache, country: string, fetches: Section -> Fetch): (r: AllStep)
    // it resolves exactly when every section's getter resolves
    ensures r.outcome.AllReturned? <==>
      forall s :: Expected(c, country, s, fetches(s)).Returned?
    // a request goes out for exactly the sections that missed
    ensures forall s :: Request(country, SectionName(s)) in r.requests <==> !IsHit(c, country, s)
    ensures forall q :: q in r.requests ==> q.country == country
    ensures OthersUnchanged(c.data, r.cache.data, country)
    ensures !r.cache.isLoading
  {
    var e := SettledEntry(c, country, fetches);
    var reqs := MissRequests(c, country);
    if AllResolve(c, country, fetches) then
      var v := AllData(e.legal.value, e.quality.value, e.work.value, e.culture.value, e.cities.value);
      AllStep(Cache(c.data[country := e], false), AllReturned(v), reqs)
    else
      var outs := Outcomes(c, country, fetches);
      assert outs[0].Thrown? || outs[1].Thrown? || outs[2].Thrown? || outs[3].Thrown? || outs[4].Thrown?;
      // nothing is written for a country that had no entry and got nothing
      var data := if country !in c.data && e == EmptyEntry then c.data else c.data[country := e];
      AllStep(Cache(data, false), AllThrown(FirstError(outs)), reqs)
  }

  /** On success each returned value is what that section's getter returns,
      and the entry of `country` is replaced by exactly those five values. */
  lemma GetAllSuccess(c: Cache, country: string, fetches: Section -> Fetch)
    requires forall s :: Expected(c, country, s, fetches(s)).Returned?
    ensures var r := GetAll(c, country, fetches);
      r.outcome.AllReturned?
      && (forall s :: Expected(c, country, s, fetches(s)) == Returned(r.outcome.value.Of(s)))
      && country in r.cache.data
      && (forall s :: r.cache.data[country].Slot(s) == Some(r.outcome.value.Of(s)))
  {
    var e := SettledEntry(c, country, fetches);
    var r := GetAll(c, country, fetches);
    assert AllResolve(c, country, fetches);
    assert r.cache.data[country] == e;
    assert r.outcome == AllReturned(AllData(e.legal.value, e.quality.value, e.work.value,
                                            e.culture.value, e.cities.value));
    forall s ensures e.Slot(s) == Some(r.outcome.value.Of(s)) {
      assert Expected(c, country, s, fetches(s)).Returned?;
      match s
      case Legal =>
      case Quality =>
      case Work =>
      case Culture =>
      case Cities =>
    }
  }

  /** On failure the error rethrown is one that a getter threw. */
  lemma GetAllFailureError(c: Cache, country: string, fetches: Section -> Fetch)
    requires exists s :: Expected(c, country, s, fetches(s)).Thrown?
    ensures var r := GetAll(c, country, fetches);
      r.outcome.AllThrown?
      && exists s :: Expected(c, country, s, fetches(s)) == Thrown(r.outcome.error)
  {
    var outs := Outcomes(c, country, fetches);
    assert outs[0].Thrown? || outs[1].Thrown? || outs[2].Thrown? || outs[3].Thrown? || outs[4].Thrown?;
    FirstErrorIsOne(outs);
    var i :| 0 <= i < |outs| && outs[i] == Thrown(FirstError(outs));
    assert outs[i] == Expected(c, country, AllSections[i], fetches(AllSections[i]));
  }

  /** On failure the sections that resolved are cached with their values
      and the failed ones keep what they had. */
  lemma GetAllFailureSlots(c: Cache, country: string, fetches: Section -> Fetch)
    requires exists s :: Expected(c, country, s, fetches(s)).Thrown?
    ensures var r := GetAll(c, country, fetches);
      r.outcome.AllThrown?
      && (forall s :: Expected(c, country, s, fetches(s)).Returned? ==>
            EntryOf(r.cache, country).Slot(s) == Some(Expected(c, country, s, fetches(s)).value))
      && (forall s :: Expected(c, country, s, fetches(s)).Thrown? ==>
            EntryOf(r.cache, country).Slot(s) == EntryOf(c, country).Slot(s))
  {
    assert EntryOf(GetAll(c, country, fetches).cache, country) == SettledEntry(c, country, fetches);
  }

  /** The request a getter sends for section `s`: one exactly on a miss. */
  function MissRequest(c: Cache, country: string, s: Section): seq<Request> {
    if IsHit(c, country, s) then [] else [Request(country, SectionName(s))]
  }

  /** Distinct sections are sent under distinct names. */
  lemma SectionNameInjective(s: Section, t: Section)
    requires s != t
    ensures SectionName(s) != SectionName(t)
  {
    assert SectionName(s)[0] != SectionName(t)[0] || SectionName(s)[1] != SectionName(t)[1];
  }

  /** No request occurs twice in `reqs`. */
  predicate DistinctRequests(reqs: seq<Request>) {
    forall i, j :: 0 <= i < j < |reqs| ==> reqs[i] != reqs[j]
  }

  /** No section occurs twice in `ss`. */
  predicate DistinctSections(ss: seq<Section>) {
    forall i, j :: 0 <= i < j < |ss| ==> ss[i] != ss[j]
  }

  /** The requests the getters for `ss` send, in that order. */
  function MissRequestsOf(c: Cache, country: string, ss: seq<Section>): seq<Request>
    decreases |ss|
  {
    if ss == [] then [] else MissRequest(c, country, ss[0]) + MissRequestsOf(c, country, ss[1..])
  }

  /** Every request sent names this country and a section of `ss` that missed. */
  lemma {:induction false} MissRequestsOfSound(c: Cache, country: string, ss: seq<Section>)
    ensures forall q :: q in MissRequestsOf(c, country, ss) ==>
      q.country == country && exists s :: s in ss && !IsHit(c, country, s) && q.section == SectionName(s)
    decreases |ss|
  {
    if ss != [] {
      MissRequestsOfSound(c, country, ss[1..]);
      forall s | s in ss[1..] ensures s in ss {
        var k :| 0 <= k < |ss[1..]| && ss[1..][k] == s;
        assert ss[k + 1] == s;
      }
    }
  }

  /** Every section of `ss` that missed is requested. */
  lemma {:induction false} MissRequestsOfComplete(c: Cache, country: string, ss: seq<Section>)
    ensures forall s :: s in ss && !IsHit(c, country, s) ==>
      Request(country, SectionName(s)) in MissRequestsOf(c, country, ss)
    decreases |ss|
  {
    if ss != [] {
      MissRequestsOfComplete(c, country, ss[1..]);
      assert forall s :: s in ss ==> s == ss[0] || s in ss[1..];
    }
  }

  /** Getters for distinct sections never send the same request twice. */
  lemma {:induction false} MissRequestsOfDistinct(c: Cache, country: string, ss: seq<Section>)
    requires DistinctSections(ss)
    ensures DistinctRequests(MissRequestsOf(c, country, ss))
    decreases |ss|
  {
    if ss != [] {
      var head := MissRequest(c, country, ss[0]);
      var tail := MissRequestsOf(c, country, ss[1..]);
      assert DistinctSections(ss[1..]) by {
        forall i, j | 0 <= i < j < |ss[1..]| ensures ss[1..][i] != ss[1..][j] {
          assert ss[1..][i] == ss[i + 1] && ss[1..][j] == ss[j + 1];
        }
      }
      MissRequestsOfDistinct(c, country, ss[1..]);
      MissRequestsOfSound(c, country, ss[1..]);
      forall q | q in tail ensures q.section != SectionName(ss[0]) {
        var s :| s in ss[1..] && !IsHit(c, country, s) && q.section == SectionName(s);
        var k :| 0 <= k < |ss[1..]| && ss[1..][k] == s;
        assert ss[k + 1] == s;
        SectionNameInjective(ss[0], s);
      }
      assert DistinctRequests(head + tail) by {
        forall i, j | 0 <= i < j < |head + tail|
          ensures (head + tail)[i] != (head + tail)[j]
        {
          if i < |head| {
            assert head == [Request(country, SectionName(ss[0]))];
            assert (head + tail)[i] == Request(country, SectionName(ss[0]));
            assert (head + tail)[j] == tail[j - |head|];
            assert tail[j - |head|] in tail;
            assert tail[j - |head|].section != SectionName(ss[0]);
          } else {
            assert (head + tail)[i] == tail[i - |head|] && (head + tail)[j] == tail[j - |head|];
          }
        }
      }
      assert MissRequestsOf(c, country, ss) == head + tail;
    }
  }

  /** Every section occurs in `AllSections`, exactly once. */
  lemma AllSectionsListsEachOnce()
    ensures forall s :: s in AllSections
    ensures DistinctSections(AllSections)
  {
    forall s ensures s in AllSections {
      assert AllSections[Rank(s)] == s;
    }
  }

  /** The getters for all five sections request exactly the missed ones. */
  lemma MissRequestsOfAll(c: Cache, country: string)
    ensures forall s :: Request(country, SectionName(s)) in MissRequestsOf(c, country, AllSections)
                        <==> !IsHit(c, country, s)
  {
    AllSectionsListsEachOnce();
    MissRequestsOfSound(c, country, AllSections);
    MissRequestsOfComplete(c, country, AllSections);
    var reqs := MissRequestsOf(c, country, AllSections);
    forall s | Request(country, SectionName(s)) in reqs ensures !IsHit(c, country, s) {
      var t :| t in AllSections && !IsHit(c, country, t) && SectionName(s) == SectionName(t);
      if t != s { SectionNameInjective(s, t); }
    }
  }

  /** The requests of the five getters, in the order they are called. */
  function MissRequests(c: Cache, country: string): (reqs: seq<Request>)
    ensures forall s :: Request(country, SectionName(s)) in reqs <==> !IsHit(c, country, s)
    ensures forall q :: q in reqs ==> q.country == country
    // one request per missing section: no request is sent twice
    ensures DistinctRequests(reqs)
  {
    AllSectionsListsEachOnce();
    MissRequestsOfAll(c, country);
    MissRequestsOfSound(c, country, AllSections);
    MissRequestsOfDistinct(c, country, AllSections);
    MissRequestsOf(c, country, AllSections)
  }

  /** The position of a section in `AllSections`. */
  function Rank(s: Section): nat {
    match s
    case Legal => 0
    case Quality => 1
    case Work => 2
    case Culture => 3
    case Cities => 4
  }

  /** The getter and the per-section outcome `GetAll` uses agree: same
      outcome, and a request exactly on a miss. */
  lemma GetAgreesWithExpected(c: Cache, country: string, s: Section, f: Fetch)
    ensures Get(c, country, s, f).outcome == Expected(c, country, s, f)
    ensures RequestOf(Get(c, country, s, f)) == MissRequest(c, country, s)
  {
  }

  /** The provider starts with nothing cached, so every getter misses and
      the first `getAllCountryData` requests every section. */
  lemma InitialCacheMissesEverything(country: string, s: Section, fetch: Fetch, fetches: Section -> Fetch)
    ensures !IsHit(InitialCache, country, s)
    ensures Get(InitialCache, country, s, fetch).request == Some(Request(country, SectionName(s)))
    ensures Request(country, SectionName(s)) in GetAll(InitialCache, country, fetches).requests
  {
  }

  /** The request a single getter call sent, as a list of zero or one. */
  function RequestOf(st: Step): seq<Request> {
    if st.request.Some? then [st.request.value] else []
  }

  /** `FirstError` picks one of the errors in the list. */
  lemma {:induction false} FirstErrorIsOne(outs: seq<Outcome>)
    requires exists i :: 0 <= i < |outs| && outs[i].Thrown?
    ensures exists i :: 0 <= i < |outs| && outs[i] == Thrown(FirstError(outs))
  {
    if !outs[0].Thrown? {
      var i :| 0 <= i < |outs| && outs[i].Thrown?;
      assert outs[1..][i - 1] == outs[i];
      FirstErrorIsOne(outs[1..]);
      var j :| 0 <= j < |outs[1..]| && outs[1..][j] == Thrown(FirstError(outs[1..]));
      assert outs[j + 1] == outs[1..][j];
    }
  }
}
