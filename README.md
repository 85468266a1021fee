# Trip planner frontend — a Dafny model

This project models the client-side core of a trip-planning web app. A traveller fills in a form:
destination, number of days, travelling with kids (and the kids' age) or with elders. The app asks a
backend for suggested attractions and caches the answer for an hour. The traveller then moves
attractions between a wishlist and numbered days. Finally the app asks the backend to complete the
itinerary and checks the shape of the answer. Session state is kept in React hooks, in a zustand store
and in `localStorage`.

One Dafny module stands for each source file of the core:

| module | file | form |
|---|---|---|
| `TripPlanner` | `src/hooks/useTripPlanner.ts` | pure plan edits plus the class `Planner`, whose fields are the hook's seven state variables |
| `TripStore` | `src/store/tripStore.ts` | state-transition functions plus the class `Store` |
| `Storage` | `src/utils/storage.ts` | functions on the key/value map plus methods on a `LocalStorage` object |
| `PersistedState` | `src/hooks/usePersistedState.ts` | functions plus the class `PersistedState` |
| `Cache` | `src/utils/cache.ts` | the key function plus the class `TimedCache` |
| `TripService` | `src/services/tripService.ts` | payloads, response checks, the `selected_landmarks` fold and the two service calls |
| `NewTripForm` | `src/components/NewTripForm.tsx` | the form's state updates |
| `ItineraryBlockCard` | `src/components/ItineraryBlockCard.tsx` | photo URL and mealtime label |

Supporting modules:

- `TripTypes`: the records of `src/types.ts`.
- `JsonValues`: a parsed JSON value whose object properties keep their key order.
- `WebStorage`: `localStorage` as an object holding a `map<string, string>`, plus `Codec`. A `Codec` is the `JSON.stringify`/`JSON.parse` pair, passed in as function values.
- `Text`: the JavaScript string operations the core relies on. These are number-to-text conversion, `join(',')`, `trim`, `parseInt` and `startsWith`/`endsWith`.
- `Wrappers`: `Option` and `Result`.

An async handler is modelled as two methods split at its `await` (`Begin…` and `Finish…`), so that
other handlers may run in between. A third method (`Handle…`) runs the two halves back to back. The
network call, the clock and the environment are parameters. A `Fetched` value is what `fetch`
delivered: data, an HTTP error status with its body, or a thrown error. `now` is `Date.now()`, and
`configured` is `VITE_API_URL`.

The model follows these behaviours of the code, which a reader might not expect:

- The wishlist and itinerary removals filter by attraction name, not by position, so every entry with the same name goes.
- `addToItinerary` filters the wishlist even when no day plan has the requested day number.
- `handleComplete` does not check that the plan is still the one it sent. A late success moves to `completed` whatever happened meanwhile. The consistency effect then sends a session with no plan back to `new`.
- `handleBack` from `completed` goes to `final`.

## Model

| member | source | states |
|---|---|---|
| TripPlanner.NewTripPlan | src/hooks/useTripPlanner.ts:36-43 | the new plan has the given details and an empty wishlist. Its days are numbered 1..travelDays, in order, and all empty. A non-positive day count gives no days. |
| TripPlanner.WithoutName | src/hooks/useTripPlanner.ts:106 | after the filter, no entry has the removed name, and the list is no longer than before |
| TripPlanner.WithoutNameCounts | src/hooks/useTripPlanner.ts:106 | each attraction with another name keeps its multiplicity |
| TripPlanner.WithoutNameAppend | src/hooks/useTripPlanner.ts:106 | the filter keeps order: it distributes over concatenation |
| TripPlanner.WithoutAbsentName | src/hooks/useTripPlanner.ts:106 | filtering a name no entry has leaves the list unchanged |
| TripPlanner.AddToWishlist | src/hooks/useTripPlanner.ts:94-100 | the attraction is appended after the old wishlist; details and itinerary are unchanged |
| TripPlanner.RemoveFromWishlist | src/hooks/useTripPlanner.ts:102-108 | the wishlist is the order-keeping name filter of the old one: no entry keeps the name, and other attractions keep their multiplicity. Details and itinerary are unchanged. |
| TripPlanner.AddToItinerary | src/hooks/useTripPlanner.ts:110-127 | each day plan numbered `day` gets the attraction appended; other days are unchanged and no day is renumbered; the wishlist is the order-keeping name filter of the old one, so same-named entries leave and others keep their multiplicity |
| TripPlanner.RemoveFromItinerary | src/hooks/useTripPlanner.ts:129-145 | each matching day plan becomes the order-keeping name filter of its attractions, so it loses exactly the entries with the name. Other days and the wishlist are unchanged and no day is renumbered. |
| TripPlanner.RemoveUndoesAddToWishlist | src/hooks/useTripPlanner.ts:94-108 | removing a just-wishlisted attraction whose name was new restores the plan exactly |
| TripPlanner.RemoveUndoesAddToItinerary | src/hooks/useTripPlanner.ts:110-145 | removing from a day what was just added to it restores the itinerary, when that day had no entry with the name |
| TripPlanner.AddToMissingDay | src/hooks/useTripPlanner.ts:110-127 | adding to a day number no plan carries only removes the wishlist entries |
| TripPlanner.AddedReachesSelection | src/hooks/useTripPlanner.ts:110-127 | on a fresh plan, an attraction added to day d (1..travelDays) is the whole `selected_landmarks` entry "Day d" sent on completion |
| TripPlanner.Planner.constructor | src/hooks/useTripPlanner.ts:9-15 | the seven initial state values |
| TripPlanner.Planner.ConsistencyEffect | src/hooks/useTripPlanner.ts:17-22 | without a plan the step becomes `new`; otherwise it is kept; afterwards the state is consistent |
| TripPlanner.Planner.SetStep | src/hooks/useTripPlanner.ts:9 | the step is set, then the effect resets it to `new` when there is no plan |
| TripPlanner.Planner.BeginNewTrip | src/hooks/useTripPlanner.ts:30-31 | loading is on and the error is cleared |
| TripPlanner.Planner.FinishNewTrip | src/hooks/useTripPlanner.ts:34-53 | on success: the fresh plan, the formatted attractions and step `planning`. On failure: plan, attractions and step are kept, with the generate error message. Loading ends either way. |
| TripPlanner.Planner.HandleNewTrip | src/hooks/useTripPlanner.ts:28-54 | a fresh cache entry answers with its attractions, sends nothing and leaves the cache. A miss sends the payload for the details, the response decides the outcome, and the cache is pruned and, on success only, stamped with the result. Both outcomes update the session as FinishNewTrip does, with the error cleared on success. Completion state is untouched. |
| TripPlanner.Planner.BeginComplete | src/hooks/useTripPlanner.ts:57-59 | without a plan nothing changes; otherwise prefetch is `fetching` and the error is cleared |
| TripPlanner.Planner.FinishComplete | src/hooks/useTripPlanner.ts:62-70 | on success: the itinerary is stored, prefetch is `done` and step is `completed` (or `new` once the plan is gone). On failure: prefetch is `error` with the completion error message. The state is consistent afterwards. |
| TripPlanner.Planner.HandleComplete | src/hooks/useTripPlanner.ts:56-71 | without a plan nothing changes and nothing is sent. Otherwise the request carries the plan's destination, day count, kids and elders flags, and its landmarks by day, and the outcome of the response validation decides step, prefetch status, itinerary and error. |
| TripPlanner.Planner.HandleBack | src/hooks/useTripPlanner.ts:73-92 | the error is always cleared. planning→new drops plan, attractions and completion. final→planning drops the completion. completed→final. new stays. |
| TripPlanner.Planner.AddToWishlistOp | src/hooks/useTripPlanner.ts:94-100 | without a plan nothing happens; otherwise the plan becomes AddToWishlist of it |
| TripPlanner.Planner.RemoveFromWishlistOp | src/hooks/useTripPlanner.ts:102-108 | without a plan nothing happens; otherwise the plan becomes RemoveFromWishlist of it |
| TripPlanner.Planner.AddToItineraryOp | src/hooks/useTripPlanner.ts:110-127 | without a plan nothing happens; otherwise the plan becomes AddToItinerary of it |
| TripPlanner.Planner.RemoveFromItineraryOp | src/hooks/useTripPlanner.ts:129-145 | without a plan nothing happens; otherwise the plan becomes RemoveFromItinerary of it |
| TripStore.InitialState | src/store/tripStore.ts:20-24 | version 1, step `new`, no plan |
| TripStore.ValidateState | src/store/tripStore.ts:27-38 | the result is consistent and only the step changes: plan with `new` → `planning`, no plan → `new`, otherwise kept; a consistent state is a fixed point |
| TripStore.AfterSetStep | src/store/tripStore.ts:47 | the plan is kept. The step becomes `new` without a plan, `planning` for a requested `new` with a plan, otherwise the requested step. |
| TripStore.AfterSetTripPlan | src/store/tripStore.ts:49-59 | the plan is replaced; the step is `planning` with a plan and `new` without; the result is consistent |
| TripStore.ApplyUpdate | src/store/tripStore.ts:66-69 | each field given in the partial update replaces the plan's field; the others are kept |
| TripStore.AfterUpdateTripPlan | src/store/tripStore.ts:61-72 | without a plan the state is returned unchanged; otherwise the plan is updated and the step validated; consistency is preserved |
| TripStore.EmptyUpdateIsIdentity | src/store/tripStore.ts:61-72 | an empty update of a consistent state changes nothing |
| TripStore.SetThenClearPlan | src/store/tripStore.ts:49-59 | setting then clearing the plan returns to step `new` with no plan |
| TripStore.Store.constructor | src/store/tripStore.ts:45 | the store starts in the initial state |
| TripStore.Store.SetStep | src/store/tripStore.ts:47 | the new state is AfterSetStep of the old one and is consistent |
| TripStore.Store.SetTripPlan | src/store/tripStore.ts:49-59 | the new state is AfterSetTripPlan of the old one and is consistent |
| TripStore.Store.UpdateTripPlan | src/store/tripStore.ts:61-72 | the new state is AfterUpdateTripPlan of the old one; consistency is kept |
| TripStore.Store.Reset | src/store/tripStore.ts:74 | back to the initial state |
| Storage.StorageKeys | src/utils/storage.ts:3-8 | four distinct keys: step, plan, attractions, completed itinerary |
| Storage.ParseStep | src/utils/storage.ts:16-22 | an accepted text is exactly a step's name |
| Storage.ParseStepAcceptsOnlyNames | src/utils/storage.ts:16-22 | a stored text reads as a step if and only if it is one of the four names |
| Storage.Saved | src/utils/storage.ts:33-34 | a stored value counts only when present and non-empty |
| Storage.StepIn | src/utils/storage.ts:16-22 | a step is read back only if the stored text is its name |
| Storage.TripPlanIn | src/utils/storage.ts:32-43 | no plan if and only if nothing non-empty is stored or it does not parse; otherwise the parsed plan |
| Storage.AttractionsIn | src/utils/storage.ts:53-64 | the empty list when nothing non-empty is stored or it does not parse; otherwise the parsed list |
| Storage.CompletedItineraryIn | src/utils/storage.ts:74-85 | none if and only if nothing non-empty is stored or it does not parse; otherwise the parsed itinerary |
| Storage.WithStep | src/utils/storage.ts:12-14 | the step key holds the step's name; every other key is unchanged |
| Storage.WithTripPlan | src/utils/storage.ts:24-30 | a plan is stored serialised, no plan removes the key; every other key is unchanged |
| Storage.WithAttractions | src/utils/storage.ts:45-51 | a non-empty list is stored serialised, an empty one removes the key; every other key is unchanged |
| Storage.WithCompletedItinerary | src/utils/storage.ts:66-72 | an itinerary is stored serialised, none removes the key; every other key is unchanged |
| Storage.WithoutStorageKeys | src/utils/storage.ts:87-91 | the four keys are gone; every other key is unchanged |
| Storage.StepRoundTrip | src/utils/storage.ts:12-22 | a saved step reads back |
| Storage.TripPlanRoundTrip | src/utils/storage.ts:24-43 | with a faithful JSON codec, a saved plan (or its absence) reads back |
| Storage.AttractionsRoundTrip | src/utils/storage.ts:45-64 | with a faithful JSON codec, a saved list reads back, the empty list included |
| Storage.CompletedItineraryRoundTrip | src/utils/storage.ts:66-85 | with a faithful JSON codec, a saved itinerary (or its absence) reads back |
| Storage.SavesAreIndependent | src/utils/storage.ts:12-30 | saving the step or the plan leaves what the other getters read unchanged |
| Storage.ClearedReadsDefaults | src/utils/storage.ts:87-91 | after clearing, every getter returns its default |
| Storage.GetStep | src/utils/storage.ts:16-22 | StepIn of the stored items: a step is returned only when the stored text is its name |
| Storage.GetTripPlan | src/utils/storage.ts:32-43 | TripPlanIn of the stored items: nothing stored gives none, and a plan returned is the parse of the stored text |
| Storage.GetAttractions | src/utils/storage.ts:53-64 | AttractionsIn of the stored items: nothing stored gives the empty list, and a non-empty list returned is the parse of the stored text |
| Storage.GetCompletedItinerary | src/utils/storage.ts:74-85 | CompletedItineraryIn of the stored items: nothing stored gives none, and an itinerary returned is the parse of the stored text |
| Storage.SaveStep | src/utils/storage.ts:12-14 | the stored items become WithStep of the old ones |
| Storage.SaveTripPlan | src/utils/storage.ts:24-30 | the stored items become WithTripPlan of the old ones |
| Storage.SaveAttractions | src/utils/storage.ts:45-51 | the stored items become WithAttractions of the old ones |
| Storage.SaveCompletedItinerary | src/utils/storage.ts:66-72 | the stored items become WithCompletedItinerary of the old ones |
| Storage.ClearAllStorage | src/utils/storage.ts:87-91 | the loop over the keys leaves exactly WithoutStorageKeys of the old items |
| WebStorage.LocalStorage.GetItem | src/utils/storage.ts:17 | a key's value is returned if and only if it is stored |
| WebStorage.LocalStorage.SetItem | src/utils/storage.ts:13 | the key is bound to the value; nothing else changes |
| WebStorage.LocalStorage.RemoveItem | src/utils/storage.ts:28 | the key is unbound; nothing else changes |
| PersistedState.InitialValue | src/hooks/usePersistedState.ts:10-21 | a missing key or a value that fails to deserialise gives the initial value; otherwise the deserialised value |
| PersistedState.WriteBack | src/hooks/usePersistedState.ts:23-34 | null/undefined removes the key, anything else stores its serialisation; other keys are unchanged |
| PersistedState.RemountRestores | src/hooks/usePersistedState.ts:10-34 | with inverse (de)serialisers, a remount reads back the last written state, or the initial value after a null |
| PersistedState.KeysAreIsolated | src/hooks/usePersistedState.ts:10-34 | writing one key never changes what another key's hook mounts with |
| PersistedState.PersistedState.constructor | src/hooks/usePersistedState.ts:10-34 | mounting reads the initial state from storage, then the effect writes it back |
| PersistedState.PersistedState.Persist | src/hooks/usePersistedState.ts:23-34 | the storage becomes WriteBack of the current state |
| PersistedState.PersistedState.SetState | src/hooks/usePersistedState.ts:23-34 | the state is replaced and written back |
| Cache.KidsSegment | src/utils/cache.ts:12 | the kids segment is "none" if and only if no age is listed |
| Cache.CacheKeyInjective | src/utils/cache.ts:11-13 | CacheKey, the key template of `getCacheKey`, is injective on the key fields: for non-negative day counts and ages, equal keys mean equal destination, day count, kids flag, ages and elders flag |
| Cache.CacheKeysDiffer | src/utils/cache.ts:11-13 | for non-negative day counts and ages, details that differ in a key field get different keys |
| Cache.Lookup | src/utils/cache.ts:15-24 | an entry is served if and only if it exists and is at most one hour old; then its data is returned |
| Cache.AfterLookup | src/utils/cache.ts:15-24 | a lookup removes only the looked-up key, and only when it did not serve it |
| Cache.FreshEntryServed | src/utils/cache.ts:15-31 | an entry set within the hour is served and kept |
| Cache.StaleEntryDropped | src/utils/cache.ts:19-22 | an entry older than an hour is not served and is deleted |
| Cache.LookupStable | src/utils/cache.ts:15-24 | repeating a lookup gives the same answer and leaves the cache as the first did |
| Cache.TimedCache.constructor | src/utils/cache.ts:9 | the cache starts empty |
| Cache.TimedCache.Get | src/utils/cache.ts:15-24 | returns Lookup and leaves AfterLookup of the old entries |
| Cache.TimedCache.Set | src/utils/cache.ts:27-32 | the key is stamped with now and the data, and a lookup at that time serves it |
| Cache.TimedCache.Clear | src/utils/cache.ts:34-37 | the cache is empty |
| Cache.TimedCache.ClearKey | src/utils/cache.ts:39-42 | only that key is removed |
| TripService.PayloadFor | src/services/tripService.ts:36-44 | `kids_age` is sent if and only if travelling with kids and the age list is non-empty, and is then that list; the other fields are copied |
| TripService.SameKeySamePayload | src/services/tripService.ts:28-44 | details that share a cache key would send the same payload, so a cache hit stands in for the same request |
| TripService.FormatAttractions | src/services/tripService.ts:77-84 | one suggested attraction per entry, in order, with its name, description and badge |
| TripService.AttractionsFrom | src/services/tripService.ts:72-84 | "Invalid API response" if and only if the itinerary or its suggestions are missing; otherwise the formatted list |
| TripService.GenerateOutcome | src/services/tripService.ts:48-93 | an HTTP error gives "Server error: status - body", a thrown error is passed on, and data goes through the response check |
| TripService.GenerateTrip | src/services/tripService.ts:25-94 | a cache hit returns the cached attractions and sends nothing. A miss sends the payload and prunes a stale entry; only a success is cached, under the key, at the response time. |
| TripService.DayKeyDistinct | src/services/tripService.ts:106 | different day numbers give different "Day n" keys |
| TripService.Names | src/services/tripService.ts:106 | the names of the attractions, in order |
| TripService.LandmarksOfHasEveryDay | src/services/tripService.ts:105-108 | every day plan has a "Day n" entry in `selected_landmarks` |
| TripService.LandmarksOfOnlyDays | src/services/tripService.ts:105-108 | every entry of `selected_landmarks` comes from some day plan |
| TripService.LandmarksOfDay | src/services/tripService.ts:105-108 | with distinct day numbers, each day's entry is its attraction names in order |
| TripService.SelectedLandmarks | src/services/tripService.ts:105-108 | the fold over the days builds exactly LandmarksOf |
| TripService.DayKeys | src/services/tripService.ts:145 | the keys kept are exactly the response's keys that start with "Day " |
| TripService.ItemsProblemAppend | src/services/tripService.ts:159-164 | the item check reports the first bad item of a concatenation |
| TripService.DaysProblemAppend | src/services/tripService.ts:152-165 | the day check reports the first bad day of a concatenation |
| TripService.ItemsProblemNone | src/services/tripService.ts:159-164 | a day's items pass if and only if every item has a truthy type, name and description |
| TripService.DaysProblemNone | src/services/tripService.ts:152-165 | the days pass if and only if every day is an array of valid items |
| TripService.ValidationAccepts | src/services/tripService.ts:144-167 | a response is accepted if and only if it is a completed itinerary, and is then returned as is. "No days" is reported exactly for a non-null response without "Day " keys. |
| TripService.DaysProblemNeverNoDays | src/services/tripService.ts:152-165 | the per-day checks never report "no days" |
| TripService.ItemsProblemNeverNoDays | src/services/tripService.ts:159-164 | the per-item checks never report "no days" |
| TripService.ItemsProblemAt | src/services/tripService.ts:159-163 | the first failing item decides the item check |
| TripService.ItemsProblemExtend | src/services/tripService.ts:159-164 | a passing prefix extended by a passing item passes |
| TripService.DaysProblemAt | src/services/tripService.ts:152-157 | the first failing day decides the day check |
| TripService.DaysProblemExtend | src/services/tripService.ts:152-165 | a passing prefix extended by a passing day passes |
| TripService.CheckItems | src/services/tripService.ts:159-164 | the loop over one day's items reports exactly the item check's verdict |
| TripService.ValidateCompletion | src/services/tripService.ts:141-167 | the validation loops return exactly Validation of the response |
| TripService.CompleteOutcome | src/services/tripService.ts:127-173 | for received data, success if and only if it is a completed itinerary; a success is always the received data itself |
| TripService.CompleteItinerary | src/services/tripService.ts:96-174 | the payload copies the details and carries LandmarksOf the itinerary; the outcome is CompleteOutcome of the response |
| JsonValues.GetFindsLast | src/services/tripService.ts:153 | a property is absent if and only if no property has that name; otherwise the last one with that name wins, as `JSON.parse` leaves it |
| Text.JoinInjective | src/utils/cache.ts:12 | distinct lists of non-negative numbers join with ',' to distinct texts |
| Text.ParseIntRoundTrip | src/components/NewTripForm.tsx:117 | `parseInt` reads back every integer's decimal text |
| Text.TrimIdempotent | src/components/NewTripForm.tsx:27 | trimming a trimmed destination changes nothing |
| NewTripForm.Initial | src/components/NewTripForm.tsx:11-17 | empty destination, 3 days, no kids, no elders, no age |
| NewTripForm.IncrementDays | src/components/NewTripForm.tsx:35-40 | one more day, capped at 14; nothing else changes |
| NewTripForm.DecrementDays | src/components/NewTripForm.tsx:42-47 | one day less, floored at 1; nothing else changes |
| NewTripForm.TypedDays | src/components/NewTripForm.tsx:113-121 | typed text gives a count in 1..14: unparsable text, 0 or a negative number gives 1, an in-range number is taken, a larger one gives 14 |
| NewTripForm.TypedDaysAcceptsEveryAllowedCount | src/components/NewTripForm.tsx:113-121 | typing any of 1..14 sets exactly that count |
| NewTripForm.IncrementKidsAge | src/components/NewTripForm.tsx:49-54 | an unset age becomes 1, an age goes up with a cap at 17, NaN stays NaN |
| NewTripForm.DecrementKidsAge | src/components/NewTripForm.tsx:56-61 | an unset age becomes 0, an age goes down with a floor at 0, NaN stays NaN |
| NewTripForm.TypedKidsAge | src/components/NewTripForm.tsx:205-209 | the age is whatever `parseInt` reads, or NaN |
| NewTripForm.ButtonsKeepRange | src/components/NewTripForm.tsx:35-61 | the four buttons keep days in 1..14 and an age in 0..17 |
| NewTripForm.Submit | src/components/NewTripForm.tsx:19-33 | only the destination changes, to its trimmed form, which a second trim keeps |
| NewTripForm.AsWrittenKidsSegment | src/utils/cache.ts:12 | the key's kids segment of the form's value throws unless the age is unset, since a number has no `join` |
| NewTripForm.AgeButtonBreaksGenerate | src/components/NewTripForm.tsx:49-61 | after either age button, submitting makes the cache key throw, so generating fails |
| NewTripForm.SubmittedDetails | src/components/NewTripForm.tsx:19-33 | the submitted details carry the trimmed destination, and the age as a one-element list (empty when unset) |
| NewTripForm.SubmittedAgeIsSent | src/services/tripService.ts:40-42 | with kids and an age, the corrected details send that age in `kids_age` |
| NewTripForm.SubmittedAgesKeyApart | src/utils/cache.ts:11-13 | two submissions differing only in the age get different cache keys |
| ItineraryBlockCard.ApiBaseUrl | src/components/ItineraryBlockCard.tsx:6 | a configured non-empty URL wins; otherwise http://localhost:8000 |
| ItineraryBlockCard.StripTrailingSlash | src/components/ItineraryBlockCard.tsx:86 | exactly one trailing '/' is removed if present |
| ItineraryBlockCard.PhotoUrl | src/components/ItineraryBlockCard.tsx:77-88 | no photo for a missing or empty URL. An http(s) URL is kept. A relative one is prefixed with the base, less its trailing slash. |
| ItineraryBlockCard.TrailingSlashIrrelevant | src/components/ItineraryBlockCard.tsx:86-87 | a base with or without one trailing slash gives the same photo URL |
| ItineraryBlockCard.UpperCase | src/components/ItineraryBlockCard.tsx:101 | ASCII lower-case letters map to their upper case; other characters are kept |
| ItineraryBlockCard.MealtimeLabel | src/components/ItineraryBlockCard.tsx:90-104 | no label for a missing or empty mealtime; otherwise the text with its first character upper-cased |
| ItineraryBlockCard.MealtimeLabels | src/components/ItineraryBlockCard.tsx:93-101 | breakfast, lunch and dinner display as Breakfast, Lunch and Dinner |
| ItineraryBlockCard.IsRestaurant | src/components/ItineraryBlockCard.tsx:68 | a block is styled as a restaurant if and only if its type is "restaurant" |

## Left out

- Network, timing and logging are not modelled. `fetch` is a `Fetched` parameter. `warmupServer` and its effect (`useTripPlanner.ts:24-26`, `tripService.ts:12-23`) are left out. All `console` output is left out, and so is `API_TIMEOUT`, which the code never uses.
- `JSON.stringify`/`JSON.parse` are an abstract `Codec`. The round-trip lemmas assume a faithful one. A stored text that parses to `null` or to a value of the wrong shape is not modelled.
- zustand's `persist` and `devtools` middleware (`tripStore.ts:76-85`) is left out. The store's state is modelled; its serialisation and rehydration are not. Rehydrated state does not pass through `validateState`.
- TripStore.ApplyUpdate: a field given explicitly as `undefined` in a partial update is treated as absent; JavaScript would spread it over the plan's field.
- TripPlanner.NewTripPlan: day counts are integers, so `Array.from`'s truncation of a fractional length is not modelled. Neither is the `RangeError` it throws for a length above 2^32 - 1. A negative length gives no days, as in JavaScript.
- TripPlanner.Planner: React's bail-out for a same-value `setState` and render scheduling are not modelled. The consistency effect runs inside each handler that can break its rule, instead of after the next render.
- Drag-and-drop, moving or reordering attractions are not modelled, because the hook defines no such operation.
- TripService.AttractionsFrom: the generate response is typed, with `Suggested_Things_to_Do` either missing or a list of (name, {description, badge}) entries. Two shapes the code accepts are not modelled. A `null` entry value makes `info.description` throw, so generating fails. A truthy string or array in place of the object yields attractions named "0", "1", … with an undefined description.
- The key order of `selected_landmarks` is not modelled, because the model holds it in a Dafny map. As in the fold, a later day plan with the same number overwrites an earlier one.
- TripService.IsCompletedItinerary: an item counts as valid when its `type`, `name` and `description` properties are truthy. The shape of the remaining fields of a completed itinerary is not checked by the code and not modelled.
- Numbers are integers. Floating point is not modelled, except that the form's NaN age is the `NotANumber` case. Number-to-text conversion writes every integer in decimal; JavaScript switches to exponent notation from 1e21 on, which no count or age here reaches.
- ItineraryBlockCard.UpperCase: covers ASCII only; Unicode case mapping is left out. The mealtime colour classes and everything rendered are left out.
- Local-storage quota errors and a serialiser that throws (`usePersistedState.ts:31-33`) are not modelled.
- Authentication, routing, `App.tsx`'s step switch, the layouts, the itinerary views and the date helpers are not part of this model.

## Findings

| source | as written | input that shows it | evidently intended | confidence | as-written member | corrected member |
|---|---|---|---|---|---|---|
| src/components/NewTripForm.tsx:52 | the age buttons and the age field store a single number in `kidsAge` (lines 52, 59, 208). The form submits that number (`HomeLayout.tsx:78`, `App.tsx:71`) through `handleNewTrip` to `generateTrip`. There `getCacheKey` calls `kidsAge?.join(',')` (`cache.ts:12`), and a number has no `join`. `kids_age` is also never sent (`tripService.ts:40`). | press "+" on the kids' age once (age 1), then submit: the key function throws a TypeError; the home layout then replaces the form with its loading panel, which shows "Failed to generate trip. Please try again." (`HomeLayout.tsx:66-67`) | `kidsAge` is the list `number[]` that `types.ts:44` declares; the chosen age is submitted as a one-element list, sent as `kids_age` and keyed apart from other ages | not executed | NewTripForm.AgeButtonBreaksGenerate | NewTripForm.SubmittedDetails |
