/** The cache's getters talking to the country-data route: the request body
    a getter sends, fed to the route's handler, and the answer stored back
    into the cache. */
module Wiring {
  import opened Wrappers
  import opened Json
  import opened CountryData
  import opened GenerateRoute

  /** `JSON.stringify({country, section})` as the route reads it back. */
  function RequestBody(q: Request): Incoming {
    Body(JObj(map["country" := JStr(q.country), "section" := JStr(q.section)]))
  }

  /** One getter call whose miss is answered by the route. */
  function GetViaRoute(c: Cache, country: string, s: Section, upstream: Upstream,
                       parse: string -> Option<Json>): Step
  {
    var answer := Post(RequestBody(Request(country, SectionName(s))), upstream, parse).response;
    Get(c, country, s, Fetched(answer.status, answer.body))
  }

  /** Only the legal getter is ever served: the other four receive the 400
      error object, store it as if it were section data, and from then on
      answer it from the cache without asking again. */
  lemma {:induction false} OtherSectionsCacheTheError(c: Cache, country: string, s: Section,
                                  upstream: Upstream, parse: string -> Option<Json>, next: Fetch)
    requires s != Legal && !IsHit(c, country, s)
    ensures var r := GetViaRoute(c, country, s, upstream, parse);
      r.outcome == Returned(InvalidSection.body)
      && EntryOf(r.cache, country).Slot(s) == Some(InvalidSection.body)
      && Get(r.cache, country, s, next) == Step(r.cache, Returned(InvalidSection.body), None, [])
  {
    SectionNameInjective(s, Legal);
    var q := RequestBody(Request(country, SectionName(s)));
    assert Prop(q.j, "section") == Some(JStr(SectionName(s)));
    var answer := Post(q, upstream, parse).response;
    assert answer == InvalidSection;
    StoredTruthyBodyIsHit(c, country, s, answer.status, answer.body, next);
  }

  /** The legal getter always stores a body that passes the route's shape
      check, whatever the model answered, so the section is a hit from then
      on. */
  lemma {:induction false} LegalSectionCachesValidData(c: Cache, country: string,
                                  upstream: Upstream, parse: string -> Option<Json>, next: Fetch)
    requires !IsHit(c, country, Legal)
    ensures var r := GetViaRoute(c, country, Legal, upstream, parse);
      r.outcome.Returned? && ValidLegal(r.outcome.value)
      && IsHit(r.cache, country, Legal)
      && Get(r.cache, country, Legal, next).request.None?
  {
    var q := RequestBody(Request(country, "legal"));
    assert Prop(q.j, "section") == Some(JStr("legal"));
    var answer := Post(q, upstream, parse).response;
    assert answer.status == 200;
    assert Truthy(answer.body);
    StoredTruthyBodyIsHit(c, country, Legal, answer.status, answer.body, next);
  }
}
