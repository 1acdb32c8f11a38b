# LlamaXpat client state and country-data route, in Dafny

LlamaXpat is an interactive globe: the user picks a country on the map or
through the place search, a country card shows AI-generated sections about
it (legal/immigration, quality of life, work, culture, cities), and a chat
box talks to a language model. This project models the sequential state
logic behind that UI as pure transition functions over immutable state,
and proves what each transition guarantees. Every network or model answer
(`fetch`, the Groq chat completion, `JSON.parse`) is a parameter of the
transition that consumes it.

Modules, one per source file:

- `CountryData` (`app/contexts/CountryDataContext.tsx`): the per-country,
  per-section cache. `Get` is the five section getters. A slot that is
  truthy is a hit, answered from the cache with no request. A miss posts
  `{country, section}`, stores whatever body comes back, whatever its HTTP
  status, and returns it; a failed fetch leaves the map alone and rethrows.
  `GetAll` is `getAllCountryData`, which overwrites the whole entry.
- `GenerateRoute` (`app/api/generateCountryData/route.ts`): the `POST`
  handler. It applies the section guard (anything but `legal` is a 400),
  trims and parses the model's content, checks its shape, and picks one of
  the two fixed fallbacks. Every 200 answer passes the shape check.
- `Wiring`: the getters talking to that route. The four non-legal getters
  cache the 400 error object as if it were data.
- `CountryCard` (`app/components/CountryCard.tsx`): the tab-to-section
  mapping, the `dataLoaded` flags, the country-change reset and the refresh
  handler. An invariant ties the flags to the displayed and cached data.
- `ChatBox` (`app/components/ChatBox.tsx`): the submit guard and the
  append-only, alternating message history.
- `Conversation` (`app/contexts/ConversationContext.tsx`): the shared
  conversation store.
- `MapSelection` (`app/components/Map.tsx`): geocoder results and clicks
  becoming the selected country, city, marker and camera.
- `Json`, `Text` and `Wrappers`: JSON values with JavaScript truthiness,
  `String.prototype.trim`, and `Option`.

The card's refresh handler passes `true` as if to force a refetch
(`app/components/CountryCard.tsx:188-204`), but the getters take only
`country` (`app/contexts/CountryDataContext.tsx:106-110`), so a refresh of a
cached section returns the cached value
(`CountryCard.RefreshOfCachedReturnsCached`).

## Model

| member | source | states |
|---|---|---|
| `CountryData.Get` | app/contexts/CountryDataContext.tsx:127-162 | a truthy slot is returned with no request and no state change; a miss posts this country and the getter's literal section name and writes `isLoading` true then false; only that slot of that country can change, a miss whose fetch produced a body resolves with that body, whatever the status, and stores exactly the value it returns; a failed fetch leaves the map unchanged and rethrows the error |
| `CountryData.HitIgnoresFetch` | app/contexts/CountryDataContext.tsx:128-130 | on a hit the result does not depend on the network's answer, so no fetch takes place |
| `CountryData.StatusIgnored` | app/contexts/CountryDataContext.tsx:145-153 | the HTTP status is never looked at: a 400 body is stored and returned exactly like a 200 body |
| `CountryData.StoredTruthyBodyIsHit` | app/contexts/CountryDataContext.tsx:128-155 | after a miss stores a truthy body, the next call for that slot returns it with no request |
| `CountryData.StoredFalsyBodyIsRefetched` | app/contexts/CountryDataContext.tsx:128-153 | a stored falsy body (null, "", 0, false) does not count as cached: the next call requests again |
| `CountryData.HitsArePermanent` | app/contexts/CountryDataContext.tsx:127-310 | across any sequence of getter calls a truthy slot keeps its value |
| `CountryData.GetAll` | app/contexts/CountryDataContext.tsx:312-347 | resolves exactly when every section resolves; requests go out for exactly the sections that missed; other countries are untouched; `isLoading` ends false |
| `CountryData.GetAllSuccess` | app/contexts/CountryDataContext.tsx:315-340 | on success each returned value is what that section's getter returns, and the country's entry is replaced by exactly those five values |
| `CountryData.GetAllFailureError` | app/contexts/CountryDataContext.tsx:341-344 | on failure the rethrown error is one a getter threw |
| `CountryData.GetAllFailureSlots` | app/contexts/CountryDataContext.tsx:312-346 | on failure the sections that resolved stay cached with their values and the failed ones keep their old slot |
| `CountryData.MissRequests` | app/contexts/CountryDataContext.tsx:315-321 | the five getters send one request per missing section, each carrying the country and that section's name, and no request twice |
| `CountryData.MissRequestsOfSound` | app/contexts/CountryDataContext.tsx:315-321 | every request the getters of a section list send names the country and a listed section that missed |
| `CountryData.MissRequestsOfComplete` | app/contexts/CountryDataContext.tsx:315-321 | every listed section that missed is requested |
| `CountryData.MissRequestsOfDistinct` | app/contexts/CountryDataContext.tsx:315-321 | getters for distinct sections never send the same request twice |
| `CountryData.MissRequestsOfAll` | app/contexts/CountryDataContext.tsx:315-321 | over all five sections, a section is requested exactly when it missed |
| `CountryData.InitialCacheMissesEverything` | app/contexts/CountryDataContext.tsx:124-125 | the provider starts with an empty cache, so every getter misses and posts its section, and the first `getAllCountryData` requests every section |
| `CountryData.GetAgreesWithExpected` | app/contexts/CountryDataContext.tsx:127-162 | the getter's outcome and request agree with the per-section reference used by `GetAll` |
| `GenerateRoute.Post` | app/api/generateCountryData/route.ts:3-85 | status is 400 exactly when a readable non-null body names a section other than `legal`, and then the body is `{error: 'Invalid section'}`; every other answer is 200, never 500; every 200 body passes the shape check; the model is called exactly for the legal section, with the fixed model name and token limit |
| `GenerateRoute.ParseAndValidate` | app/api/generateCountryData/route.ts:47-73 | the inner try/catch always answers 200 with a body that passes the shape check |
| `GenerateRoute.PassThroughIffValid` | app/api/generateCountryData/route.ts:53-61 | the parsed content is returned unchanged if and only if `visaRequirements` and `pathToResidency` are truthy and `requiredDocuments` is an array; otherwise the "temporarily unavailable" fallback |
| `GenerateRoute.ParseFailureFallback` | app/api/generateCountryData/route.ts:62-72 | content that is not a string or does not parse yields the "Information temporarily unavailable" fallback |
| `GenerateRoute.OuterFailureFallback` | app/api/generateCountryData/route.ts:74-84 | an unreadable or null request body (whatever the model would have answered) yields the "Failed to load information" fallback with no model call; for any body naming the legal section, a failed model call or a reply without a message yields the "Failed to load information" fallback with status 200 |
| `GenerateRoute.TrimmedBeforeParse` | app/api/generateCountryData/route.ts:48-50 | contents that trim to the same text get the same answer |
| `Wiring.OtherSectionsCacheTheError` | app/api/generateCountryData/route.ts:7-9 | a quality, work, culture or cities getter receives the 400 error object, caches it, and answers it from the cache afterwards |
| `Wiring.LegalSectionCachesValidData` | app/api/generateCountryData/route.ts:53-84 | the legal getter always caches a body that passes the shape check, and the next call is a hit |
| `CountryCard.TabSection` | app/components/CountryCard.tsx:114-150 | exactly the five trigger values map to a section; `immigration` maps to legal, `living` to cities, the others to the section of the same name |
| `CountryCard.Initial` | app/components/CountryCard.tsx:96-106 | the card starts on tab `living` with exactly the five section flags, all false, and nothing displayed |
| `CountryCard.LoadTab` | app/components/CountryCard.tsx:110-156 | the spinner goes on and off on every path; a request is made only for a known tab whose flag is false; a set flag or unknown tab changes nothing; only the active tab's flag can change and it becomes true exactly when the getter resolves; an unloaded known tab goes through the ordinary cache lookup, with the same cache and request, and only that section's display changes, to the resolved value |
| `CountryCard.LoadIsIdempotent` | app/components/CountryCard.tsx:116-149 | after a tab's section resolved, loading it again makes no request and changes nothing |
| `CountryCard.ChangeCountry` | app/components/CountryCard.tsx:171-179 | a new country clears all five flags and keeps the tab and displayed data |
| `CountryCard.SelectTab` | app/components/CountryCard.tsx:388-426 | the triggers are disabled while the card or the cache is loading; otherwise only the active tab changes |
| `CountryCard.Refresh` | app/components/CountryCard.tsx:182-218 | disabled while loading; a known tab goes through the ordinary cache lookup, with the same cache and request; on success only that section's display changes, to the value, and the computed key is set; on failure no flag changes; an unknown tab makes no request but still marks its own name; no other flag changes |
| `CountryCard.RefreshOfCachedReturnsCached` | app/components/CountryCard.tsx:186-206 | refreshing a tab whose section is cached makes no request and displays the cached value: the `true` argument forces nothing |
| `CountryCard.RefreshLivingMarksLiving` | app/components/CountryCard.tsx:203-212 | refreshing the living tab sets a `living` key and leaves `cities` as it was |
| `CountryCard.InitialIsCoherent` | app/components/CountryCard.tsx:96-106 | the initial card satisfies the flag invariant against any cache |
| `CountryCard.SelectKeepsCoherent` | app/components/CountryCard.tsx:388-426 | selecting a trigger tab keeps the invariant |
| `CountryCard.LoadKeepsCoherent` | app/components/CountryCard.tsx:110-156 | the load effect keeps the invariant: a flag is set only together with the displayed and cached value |
| `CountryCard.ReloadKeepsCoherent` | app/components/CountryCard.tsx:182-218 | the refresh handler keeps the invariant, the `living` key included |
| `CountryCard.NewCountryKeepsCoherent` | app/components/CountryCard.tsx:171-179 | the reset effect keeps the invariant |
| `CountryCard.ApplyKeepsCoherent` | app/components/CountryCard.tsx:109-218 | selecting a trigger tab, loading, refreshing and changing country each keep the invariant: every set section flag has its value displayed and equal to the cached slot |
| `CountryCard.RunKeepsCoherent` | app/components/CountryCard.tsx:109-218 | the invariant holds after any sequence of those events |
| `ChatBox.Type` | app/components/ChatBox.tsx:96-101 | typing replaces the input unless the field is disabled by loading |
| `ChatBox.Send` | app/components/ChatBox.tsx:20-36 | an accepted submit appends the untrimmed input as a user message, clears the input, sets loading, and sends the pre-clear input |
| `ChatBox.Answer` | app/components/ChatBox.tsx:38-54 | an ok reply becomes an assistant message with `data.message`; a non-ok reply or a thrown error becomes the fixed apology |
| `ChatBox.Submit` | app/components/ChatBox.tsx:20-58 | a blank input or a pending request changes nothing; otherwise exactly the user message and one assistant answer are appended after the unchanged history, the input is empty and loading ends false |
| `ChatBox.BlankInputIgnored` | app/components/ChatBox.tsx:22 | input made only of white space is never sent |
| `ChatBox.NonBlankInputSent` | app/components/ChatBox.tsx:22-35 | input with a non-space character is sent when idle, untrimmed |
| `ChatBox.AppendPairAlternates` | app/components/ChatBox.tsx:24-54 | appending a user message then an assistant message keeps the history alternating |
| `ChatBox.PerformKeepsAlternating` | app/components/ChatBox.tsx:20-58 | one typing or submit action extends the history without changing it and keeps it alternating |
| `ChatBox.SessionAppendsOnly` | app/components/ChatBox.tsx:20-58 | across any session messages are only appended, the history alternates user/assistant, and loading ends false |
| `Text.SkipLeading` | app/components/ChatBox.tsx:22 | finds where the leading white space ends: everything skipped is white space and the next character is not |
| `Text.SkipTrailing` | app/components/ChatBox.tsx:22 | finds where the trailing white space begins: everything skipped is white space and the character before is not |
| `Text.Trim` | app/api/generateCountryData/route.ts:49 | `trim()` yields the slice between white-space runs at both ends, beginning and ending with non-space |
| `Text.TrimEmptyIffBlank` | app/components/ChatBox.tsx:22 | `input.trim()` is empty if and only if the input is all white space |
| `Text.TrimIdempotent` | app/api/generateCountryData/route.ts:49 | trimming twice equals trimming once |
| `Conversation.AddMessage` | app/contexts/ConversationContext.tsx:28-30 | the message goes at the end, the prefix is unchanged, the length grows by one, nothing else changes |
| `Conversation.Reset` | app/contexts/ConversationContext.tsx:32-36 | empty messages, loading false, no current country |
| `Conversation.SetIsLoading` | app/contexts/ConversationContext.tsx:25 | changes only the loading flag |
| `Conversation.SetCurrentCountry` | app/contexts/ConversationContext.tsx:26 | changes only the current country |
| `Conversation.ResetIsIdempotent` | app/contexts/ConversationContext.tsx:24-36 | resetting is idempotent and yields the initial state |
| `Conversation.ReplayWithoutResetAppends` | app/contexts/ConversationContext.tsx:28-30 | without a reset, the history after any run is the old history followed by exactly the added messages |
| `Conversation.ReplayEndingInResetIsInitial` | app/contexts/ConversationContext.tsx:32-36 | any run ending in a reset leaves the initial state |
| `MapSelection.FindCountry` | app/components/Map.tsx:93 | finds the first context entry whose id starts with `country`, or reports that none does |
| `MapSelection.CountryOfPlace` | app/components/Map.tsx:93 | the country of a place is the text of the first `country` entry, and null when there is none or its text is empty |
| `MapSelection.PlaceMarker` | app/components/Map.tsx:97-103 | the marker is moved if it exists and created otherwise; selection and camera are unchanged |
| `MapSelection.OnResult` | app/components/Map.tsx:86-111 | a `country` result selects its text and clears the city; a `place` result selects the city and the country of its context; any other kind keeps the selection; the marker moves to the result and the camera flies there at zoom 5 for countries and 10 otherwise |
| `MapSelection.OnClick` | app/components/Map.tsx:177-199 | a click with no feature changes nothing; otherwise the country becomes the feature's `name_en`, the city is cleared, and marker and camera go to the click point at zoom 5 |
| `MapSelection.CloseCard` | app/components/Map.tsx:238 | closing the card clears the selected country and nothing else |
| `MapSelection.CloseHidesCard` | app/components/Map.tsx:236-240 | after closing, the card is not shown |
| `MapSelection.AtMostOneMarker` | app/components/Map.tsx:184-190 | over any sequence of searches, clicks and closes at most one marker is ever created, and once it exists it stays |

## Left out

- Network and model calls (`fetch`, the Groq and OpenAI SDKs, the chat route) are not modelled; their answers are parameters of the transition that consumes them. Prompt texts, the temperature setting and the `${country}` interpolation into the prompt are not modelled.
- `JSON.parse` is an arbitrary partial function from text to JSON, passed as a parameter.
- JSON numbers and map coordinates are integers: floating point and `NaN` are not modelled, and nothing computes on coordinates.
- React scheduling is not modelled: when effects run, stale closures over `countryData`, and the concurrent `isLoading` writes of getters that run together. The card's load effect, the reset effect and the refresh handler are separate transitions that the caller sequences.
- CountryData.GetAll: judges every section against the cache as it stood at the call, as the source's getters do, but runs them one after another. On failure it rethrows the first failing section in list order. Under `Promise.all` the first rejection in time wins. It records only the final `isLoading`, not the intermediate writes.
- Console logging, rendering, markdown, styling, the hard-coded `cityData` table and the card's `selectedCity` are not modelled.
- The Mapbox map, the geocoder widget, popups, hover timeouts, the resize observer and unmount cleanup are foreign library calls and timers, and are not modelled.
- ChatBox.Answer: `data.message` is a string; an ok reply without a `message` field, which would append `undefined`, is not modelled.
- The user, language and map-focus contexts, the header, profile, overlay and interactive-message components and the page layout are static or pure UI and are not modelled.
