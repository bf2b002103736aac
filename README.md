# Evently client core, modelled in Dafny

This project models the two pieces of client-side logic in the Evently event-booking front end.

- **Handle cache** (`src/contexts/SupabaseContext.tsx`). It caches backend clients in a map from cache key to `{client, timestamp}`.
  - The key is `"anonymous"` when there is no token. Otherwise it is `hashToken(token)`, a 31-multiplier rolling hash over the token's UTF-16 code units, kept as a signed 32-bit value and printed in decimal.
  - `getClient` first sweeps out entries older than the 30-minute TTL. It then reuses a live entry, or builds a client and stores it.
  - `clearCache` and the logout effect empty the map.
- **Events listing** (`src/components/EventsClient.tsx`). This covers:
  - the tier table and `doesPlanCoverTier`;
  - the plan derived from the membership predicate;
  - the search, tier and tab-count filters;
  - the component state changed by the tier and search handlers and by `fetchEvents`.

Modules:

- `Wrappers`: `Option` and `Result`.
- `EventTypes`: the event record and its four-valued `tier` field.
- `TokenHash`: int32 arithmetic as JavaScript performs it, the hash recurrence, and decimal rendering. `HashToken` is the source's loop, proved against the recurrence.
- `SupabaseContext`: the cache as a class `SupabaseProvider`. It holds the map, the remembered user id and the factory's counter. Every `getClient` is proved against the pure step function `GetClientStep`, and the lemmas about `GetClientStep` carry the reuse, rebuild, boundary, collision and at-most-once properties.
- `TierPolicy`: the rank table, the coverage relation and plan derivation.
- `EventFilters`: `filter` with the two callbacks, search filtering, the listing and the tab counts.
- `EventsClient`: the component state as a class `EventsClientState`, with methods for the plan effect, the filter handlers and the fetch.

Modelling choices:

- A bearer token is a sequence of UTF-16 code units (`CodeUnit`, 0 to 65535), because `charCodeAt` reads code units. Every other text, such as cache keys, event fields and the search text, is a Dafny `string`, whose characters are Unicode scalar values.
- Every intermediate value in `hashToken` is an integer well below 2^53, so JavaScript numbers are plain integers here.
  - `x << 5` is `ToInt32(ToInt32(x) * 32)`.
  - `x & x` is `ToInt32(x)`.
- The backend client factory `createClient` is a counter. Each successful call issues the next handle id, so reference equality of clients becomes equality of ids. `GetClient` takes a boolean that says whether the factory would throw.
- The clock is a parameter `now`. The sweep, the age test and the stored timestamp, which read `Date.now()` three times in the source, use that one value.
- An `EventFilters` object is a map from property to `Option<string>`, so object spread `{...a, ...b}` is map union.
- The toast shown on a denied tier is the boolean result of `HandleTierChange`.

Behaviour of the code worth noting:

- **Plan order.** Plans are derived in the order platinum, silver, gold (src/components/EventsClient.tsx:59-64), not by rank. `SilverShadowsGold` shows the effect: a user who holds both silver and gold gets the silver plan, which does not cover gold events.
- **The `"all"` tab.** `doesPlanCoverTier(p, "all")` is false for every plan. `"all"` is accepted only by the separate `tier === "all"` test in `handleTierChange`.
- **Unknown tiers.** An unknown tier name is not an error. Compared against one of the four tiers, or against the "all" tab, it makes the comparison false. The comparison of two inherited property names is not modelled (see "## Left out").
- **Key collisions.** The 32-bit hash is not injective. The tokens `"Aa"` and `"BB"` share a key, and `CollidingTokensShareClient` shows the cache then hands the client built for one token, with that token's `Authorization` header, to the other.

## Model

| member | source | states |
|---|---|---|
| `TokenHash.ToInt32` | src/contexts/SupabaseContext.tsx:31 | the result is a signed 32-bit value congruent to the input modulo 2^32 |
| `TokenHash.ShiftLeft5` | src/contexts/SupabaseContext.tsx:30 | `x << 5` is an int32 congruent to 32 times the int32 of `x` |
| `TokenHash.SelfAnd` | src/contexts/SupabaseContext.tsx:31 | `x & x` is an int32, and equals `x` when `x` is already an int32 |
| `TokenHash.HashValue` | src/contexts/SupabaseContext.tsx:26-34 | the recurrence h := int32(31h + c) from 0 always stays in [-2^31, 2^31) |
| `TokenHash.HashIsPolynomial` | src/contexts/SupabaseContext.tsx:26-34 | the hash is the base-31 polynomial of the code units reduced once to int32 |
| `TokenHash.LoopBodyIsHashStep` | src/contexts/SupabaseContext.tsx:30-31 | the loop body's shift, subtract, add and self-and equals one step h := int32(31h + c) |
| `TokenHash.HashCollides` | src/contexts/SupabaseContext.tsx:26-34 | the hash is not injective: "Aa" and "BB" hash alike |
| `TokenHash.NatToDecimal` | src/contexts/SupabaseContext.tsx:33 | the rendering is a non-empty string of digits with no leading zero |
| `TokenHash.IntToDecimal` | src/contexts/SupabaseContext.tsx:33 | the rendering starts with a minus sign or a digit |
| `TokenHash.DecimalRoundTrip` | src/contexts/SupabaseContext.tsx:33 | parsing the rendered numeral gives back the integer, so distinct hashes give distinct keys |
| `TokenHash.HashToken` | src/contexts/SupabaseContext.tsx:26-34 | the loop returns the decimal numeral of the recurrence's value, and the numeral parses back to it |
| `SupabaseContext.CacheKey` | src/contexts/SupabaseContext.tsx:69 | the key is "anonymous" exactly when the token is absent or empty; otherwise it is the decimal numeral of the token's hash |
| `SupabaseContext.CacheKeyCollides` | src/contexts/SupabaseContext.tsx:69 | two different tokens can share one cache key |
| `SupabaseContext.Sweep` | src/contexts/SupabaseContext.tsx:53-62 | the swept map keeps exactly the entries that are not older than the TTL, each unchanged |
| `SupabaseContext.SweepLater` | src/contexts/SupabaseContext.tsx:53-62 | sweeping at t1 and then at t2 >= t1 equals sweeping once at t2 |
| `SupabaseContext.GetClientStep` | src/contexts/SupabaseContext.tsx:64-98 | a returned client is the one stored under the key; any other key survives exactly when it was not expired and keeps its entry; on factory failure the map is the swept map; the factory issues at most one handle |
| `SupabaseContext.GetClientReuses` | src/contexts/SupabaseContext.tsx:72-75 | a live entry younger than the TTL is returned, the factory is not called and nothing is inserted |
| `SupabaseContext.GetClientBuilds` | src/contexts/SupabaseContext.tsx:77-97 | with no live entry, a new handle bound to the token is stored under the key at `now`, replacing any old one; a failing factory leaves the swept map |
| `SupabaseContext.ExactTtlRebuilds` | src/contexts/SupabaseContext.tsx:53-97 | an entry exactly CACHE_TTL old survives the sweep but is not reused: a new client is built |
| `SupabaseContext.StepIsSwept` | src/contexts/SupabaseContext.tsx:53-97 | after getClient, a sweep at the same time removes nothing |
| `SupabaseContext.SameKeySharesClient` | src/contexts/SupabaseContext.tsx:64-98 | a second call at the same time, for the same token or any token of the same key, returns the first call's client and changes neither the map nor the factory count |
| `SupabaseContext.CollidingTokensShareClient` | src/contexts/SupabaseContext.tsx:69-97 | a client built for "Aa", carrying the "Aa" bearer, is returned for "BB" |
| `SupabaseContext.EmptyCacheBuilds` | src/contexts/SupabaseContext.tsx:72-97 | after the cache is emptied, the next call for any token builds a new client |
| `SupabaseContext.GetClientStepWellFormed` | src/contexts/SupabaseContext.tsx:78-95 | getClient keeps every entry filed under its own token's key with an issued id, and a newly built client differs from every cached one |
| `SupabaseContext.SupabaseProvider.constructor` | src/contexts/SupabaseContext.tsx:38-41 | the provider starts with an empty map and no remembered user |
| `SupabaseContext.SupabaseProvider.CleanupExpiredClients` | src/contexts/SupabaseContext.tsx:53-62 | the loop deletes exactly the entries with `now - timestamp > CACHE_TTL` and leaves every other entry untouched |
| `SupabaseContext.SupabaseProvider.GetClient` | src/contexts/SupabaseContext.tsx:64-100 | the returned client, new map and factory count are those of `GetClientStep` on the old state, and the cache invariant is kept |
| `SupabaseContext.SupabaseProvider.ClearCache` | src/contexts/SupabaseContext.tsx:102-104 | the map is empty afterwards |
| `SupabaseContext.SupabaseProvider.ObserveUserId` | src/contexts/SupabaseContext.tsx:45-51 | the map is emptied exactly when the remembered user id is truthy and the new one is not; the new id is remembered if truthy, otherwise null |
| `EventTypes.ParseTier` | src/types/events.ts:7 | a parsed tier's name is the parsed string |
| `EventTypes.TierNameRoundTrip` | src/types/events.ts:7 | the four tier names are distinct and read back as their tiers |
| `TierPolicy.DoesPlanCoverTier` | src/components/EventsClient.tsx:28-30 | a plan covers a tier exactly when both names are tiers and the plan comes no earlier than the tier in free < silver < gold < platinum |
| `TierPolicy.TierValue` | src/components/EventsClient.tsx:21-26 | the table defines a rank in 1..4 for exactly the four tier names |
| `TierPolicy.CoversIffOrder` | src/components/EventsClient.tsx:21-30 | on the four tiers, a plan covers a tier exactly when it comes no earlier in free < silver < gold < platinum |
| `TierPolicy.UnknownNeverCovers` | src/components/EventsClient.tsx:28-30 | a name outside the table makes the comparison false when the other name is a tier, and no plan covers the "all" tab |
| `TierPolicy.CoversIsTotalOrder` | src/components/EventsClient.tsx:21-30 | on the four tiers, coverage is reflexive, antisymmetric, transitive and total |
| `TierPolicy.PlatinumAndFree` | src/components/EventsClient.tsx:21-30 | platinum covers exactly the four tiers; free covers only free |
| `TierPolicy.DerivedPlan` | src/components/EventsClient.tsx:57-69 | the derived plan is a tier; it is free or a plan the user holds; holding platinum gives platinum |
| `TierPolicy.DerivePlanIsFirstHeld` | src/components/EventsClient.tsx:57-69 | the derived plan is platinum if held, else silver if held, else gold if held, else free |
| `TierPolicy.SilverShadowsGold` | src/components/EventsClient.tsx:59-64 | holding silver and gold but not platinum gives silver, which does not cover gold |
| `EventFilters.FilterByKeepsPassing` | src/components/EventsClient.tsx:108-115 | every kept event is one of the input events and passes the callback |
| `EventFilters.FilterByCounts` | src/components/EventsClient.tsx:108-115 | each passing event is kept as often as it occurs; each failing event is dropped |
| `EventFilters.FilterByIsSubsequence` | src/components/EventsClient.tsx:108-115 | the result is an order-preserving subsequence of the input |
| `EventFilters.FilterByCommutes` | src/components/EventsClient.tsx:143-166 | filtering by two callbacks gives the same list in either order |
| `EventFilters.SearchFilteredEvents` | src/components/EventsClient.tsx:104-116 | the result is an order-preserving subsequence of the events, and with a search text every kept event matches the lower-cased text |
| `EventFilters.SearchFilteredSpec` | src/components/EventsClient.tsx:104-116 | no or empty search returns the events unchanged; otherwise an order-preserving subsequence that keeps exactly the events whose lower-cased title, description, location or category contains the lower-cased term |
| `EventFilters.FilteredEvents` | src/components/EventsClient.tsx:143-166 | every listed event is one of the events, has the selected tier unless it is "all", and matches the search text when there is one |
| `EventFilters.FilteredEventsCommute` | src/components/EventsClient.tsx:143-166 | the listing is the search result when the tier is "all", otherwise the search result restricted to the selected tier |
| `EventFilters.TierTabs` | src/components/EventsClient.tsx:118-140 | five tabs: "All" counts every event; each tier tab counts the events of its tier, at most the "All" count |
| `EventFilters.TierCountsPartition` | src/components/EventsClient.tsx:118-140 | every event falls in exactly one of the four tier counts |
| `EventFilters.AllTabIsSum` | src/components/EventsClient.tsx:118-140 | the "All" tab count is the sum of the four tier tab counts |
| `EventFilters.TabCountIsListingLength` | src/components/EventsClient.tsx:118-166 | each tab's count is the length of the listing shown when that tab is selected |
| `EventsClient.EventsClientState.constructor` | src/components/EventsClient.tsx:13-19 | the component starts loading, with no events, no error, no filters, tab "all" and plan "free" |
| `EventsClient.EventsClientState.Listing` | src/components/EventsClient.tsx:143-166 | every listed event is one of the component's events and has the selected tier unless it is "all" |
| `EventsClient.EventsClientState.CanAccess` | src/components/EventsClient.tsx:239 | a card is unlocked exactly when the plan is a tier no earlier than the event's tier |
| `EventsClient.EventsClientState.ApplyPlan` | src/components/EventsClient.tsx:57-69 | with a membership predicate the plan becomes the derived plan; without one it is kept |
| `EventsClient.EventsClientState.UpdateFilters` | src/components/EventsClient.tsx:80-83 | the new properties override; every other property keeps its value |
| `EventsClient.EventsClientState.HandleSearchChange` | src/components/EventsClient.tsx:85-87 | only the search text changes; tier filter and tab stay in sync |
| `EventsClient.EventsClientState.HandleTierChange` | src/components/EventsClient.tsx:89-102 | a notice is shown exactly when the tab is neither "all" nor covered; the tab becomes the chosen one, or "all" on a notice; the tier filter is undefined exactly for "all"; other filters, the events and the plan are unchanged; with a tier selected, every listed event is unlocked |
| `EventsClient.EventsClientState.StartFetch` | src/components/EventsClient.tsx:35-37 | loading is on and the error is cleared |
| `EventsClient.EventsClientState.FinishFetch` | src/components/EventsClient.tsx:39-53 | loading is off; a returned error or an exception shows its message and keeps the events; success stores `data ?? []` |
| `EventsClient.EventsClientState.FetchEvents` | src/components/EventsClient.tsx:35-54 | a completed fetch ends loading; on success the events are `data ?? []` and there is no error; on failure the events are kept |

## Left out

- Rendering: the JSX markup, `Header`, `Footer`, `EventCardSkeleton`, the pages under `src/app/` and `tailwind.config.js` are presentation only.
- `src/components/EventCard.tsx`: the modal and image-loading flags, the colour, icon and gradient tables, and the locale-dependent date formatting are left out. Only the `canAccess` flag it receives is modelled, as `EventsClientState.CanAccess`.
- `src/hooks/useEventService.ts`: fetching the token and querying the backend happen over the network. Their result enters the model as a `FetchOutcome`.
- `createClient`: the URL, the anonymous key and the header object are foreign configuration. A handle records only its id and the bearer token it was built with.
- Clock: the three `Date.now()` reads in one `getClient` call all use one value `now`. A clock that moves between the reads is not modelled.
- Concurrency: two UI flows can interleave at an `await` and both miss the cache. Because `fetchEvents` is split into `StartFetch` and `FinishFetch`, other handlers may run between the two. The model does not capture interleaving inside `getAllEvents`.
- React machinery: effect scheduling, `useCallback`/`useMemo` identity and batched state updates are not modelled. Handlers apply their updates in order and the last write wins, which is the state React settles on. `updateFilters` reads the `filters` of the current render, so a stale closure after an earlier unflushed update is not modelled.
- The initial-load effect that calls `fetchEvents` when `userId` is truthy (src/components/EventsClient.tsx:72-77) is left out. It is effect scheduling; the fetch it triggers is `FetchEvents`.
- `useSupabase` throwing outside its provider is left out. It is a framework context lookup.
- `toast` and `console.error`: these are side effects. Only the denied-tier notice is kept, as a boolean.
- UnknownNeverCovers: `tierValues` is a plain object, so inherited names such as "toString" or "__proto__" read as functions or objects, not `undefined`. In JavaScript, comparing two such names converts both to strings and can be true. The model reads every non-tier name as `undefined`, and the lemma is stated only for pairs where one side is a tier or the tier is "all". No call site passes two such names: the plan is always one of the four literals.
- Lower-casing: `toLowerCase` is modelled on ASCII letters only. Unicode case mapping is not modelled.
- Hash collisions: distinct tokens can share a key and then share a client. The model proves this happens rather than assuming collision-freedom.
