/** The `POST` handler of the country-data route. It accepts only the
    `legal` section, asks the language model for a JSON object, validates
    its shape and otherwise answers with one of two fixed fallbacks. The
    model call and `JSON.parse` are oracle parameters. */
module GenerateRoute {
  import opened Wrappers
  import opened Json
  import Text

  /** The incoming body as `request.json()` read it, or a read failure. */
  datatype Incoming = Unreadable | Body(j: Json)

  /** The value of `data.choices[0].message.content` on the model's reply:
      either some link of the chain is missing (reading it throws), or it
      yields a value, `None` standing for `undefined`. */
  datatype Content = ChainBroken | ContentValue(v: Option<Json>)

  /** The model call: it threw (network or unreadable reply), or produced a
      reply whose content is as above. */
  datatype Upstream = UpstreamFailed | UpstreamData(content: Content)

  /** The fixed parameters of the model call. */
  datatype ModelCall = ModelCall(model: string, maxTokens: int, systemPrompt: string)

  const LegalModelCall := ModelCall(
    "mixtral-8x7b-32768", 1024,
    "You are a helpful assistant that responds only with valid JSON objects.")

  datatype Response = Response(status: int, body: Json)

  /** The handler's answer and the model call it made, if any. */
  datatype Handled = Handled(response: Response, call: Option<ModelCall>)

  /** A legal-section object with the three expected fields. */
  function LegalObject(visa: string, residency: string, document: string): Json {
    JObj(map["visaRequirements" := JStr(visa),
             "pathToResidency" := JStr(residency),
             "requiredDocuments" := JArr([JStr(document)])])
  }

  const InvalidSection := Response(400, JObj(map["error" := JStr("Invalid section")]))

  /** The fallback for an answer that does not parse or validate. */
  const Unavailable := Response(200, LegalObject(
    "Information temporarily unavailable", "Information temporarily unavailable",
    "Documentation unavailable"))

  /** The fallback for any failure outside the parse step. */
  const FailedToLoad := Response(200, LegalObject(
    "Failed to load information", "Failed to load information", "Failed to load documents"))

  /** The shape check: `visaRequirements` and `pathToResidency` truthy and
      `requiredDocuments` an array. */
  predicate ValidLegal(g: Json) {
    && TruthyOpt(Prop(g, "visaRequirements"))
    && TruthyOpt(Prop(g, "pathToResidency"))
    && IsArray(Prop(g, "requiredDocuments"))
  }

  /** The inner `try`: trim and parse the content, then validate it. A
      content that is not a string makes `.trim()` throw, which the inner
      `catch` turns into the same fallback as a parse failure. */
  function ParseAndValidate(content: Option<Json>, parse: string -> Option<Json>): (r: Response)
    ensures r.status == 200 && ValidLegal(r.body)
  {
    match content
    case Some(JStr(s)) =>
      (match parse(Text.Trim(s))
       case Some(g) => if ValidLegal(g) then Response(200, g) else Unavailable
       case None => Unavailable)
    case _ => Unavailable
  }

  /** The whole handler. */
  function Post(incoming: Incoming, upstream: Upstream, parse: string -> Option<Json>): (r: Handled)
    // only the legal section is served; everything else is a 400 without a model call
    ensures r.response.status == 400 <==>
      incoming.Body? && incoming.j != JNull && Prop(incoming.j, "section") != Some(JStr("legal"))
    ensures r.response.status == 400 ==> r.response == InvalidSection
    // the handler never answers 500: every other answer is a 200
    ensures r.response.status == 200 || r.response.status == 400
    // every 200 answer passes the shape check
    ensures r.response.status == 200 ==> ValidLegal(r.response.body)
    // the model is called exactly when the request names the legal section
    ensures r.call.Some? <==> incoming.Body? && Prop(incoming.j, "section") == Some(JStr("legal"))
    ensures r.call.Some? ==> r.call.value == LegalModelCall
  {
    match incoming
    case Unreadable => Handled(FailedToLoad, None)
    case Body(j) =>
      if j == JNull then
        // destructuring `null` throws into the outer catch
        Handled(FailedToLoad, None)
      else if Prop(j, "section") != Some(JStr("legal")) then
        Handled(InvalidSection, None)
      else
        var call := Some(LegalModelCall);
        match upstream
        case UpstreamFailed => Handled(FailedToLoad, call)
        // the inner catch reads the chain again to log it, and throws again
        case UpstreamData(ChainBroken) => Handled(FailedToLoad, call)
        case UpstreamData(ContentValue(v)) => Handled(ParseAndValidate(v, parse), call)
  }

  /** A legal request, as the client's getter sends it. */
  function LegalRequest(country: string): Incoming {
    Body(JObj(map["country" := JStr(country), "section" := JStr("legal")]))
  }

  /** The parsed answer is passed through unchanged exactly when it passes
      the shape check; otherwise the "temporarily unavailable" fallback. */
  lemma PassThroughIffValid(country: string, s: string, parse: string -> Option<Json>, g: Json)
    requires parse(Text.Trim(s)) == Some(g)
    ensures var r := Post(LegalRequest(country), UpstreamData(ContentValue(Some(JStr(s)))), parse).response;
      (r == Response(200, g) <==> ValidLegal(g))
      && (!ValidLegal(g) ==> r == Unavailable)
  {
  }

  /** A parse failure, or content that is not a string, yields the
      "temporarily unavailable" fallback. */
  lemma ParseFailureFallback(country: string, v: Option<Json>, parse: string -> Option<Json>)
    requires !(v.Some? && v.value.JStr?) || parse(Text.Trim(v.value.s)).None?
    ensures Post(LegalRequest(country), UpstreamData(ContentValue(v)), parse).response == Unavailable
  {
  }

  /** Failures outside the parse step yield the "failed to load" fallback
      with status 200. */
  lemma OuterFailureFallback(j: Json, upstream: Upstream, parse: string -> Option<Json>)
    // an unreadable or `null` body fails before the model is consulted
    ensures Post(Unreadable, upstream, parse) == Handled(FailedToLoad, None)
    ensures Post(Body(JNull), upstream, parse) == Handled(FailedToLoad, None)
    // for any legal request, a failed call or a broken content chain
    ensures Prop(j, "section") == Some(JStr("legal")) ==>
      Post(Body(j), UpstreamFailed, parse).response == FailedToLoad
      && Post(Body(j), UpstreamData(ChainBroken), parse).response == FailedToLoad
    ensures FailedToLoad.status == 200
  {
  }

  /** The content is trimmed before parsing: two contents that trim to the
      same text get the same answer, so surrounding white space is ignored. */
  lemma TrimmedBeforeParse(s1: string, s2: string, parse: string -> Option<Json>)
    requires Text.Trim(s1) == Text.Trim(s2)
    ensures ParseAndValidate(Some(JStr(s1)), parse) == ParseAndValidate(Some(JStr(s2)), parse)
  {
  }
}
