# travAi core, modelled in Dafny

travAi plans trips. A request names a destination, a number of days, preferences, a budget and a group size. The backend then does the following:

- builds Google Places text-search queries for attractions, restaurants and lodging;
- cuts the search results down to the fields the planner needs;
- groups the places by preference and drops the ones already seen;
- either lays out a day-by-day plan itself or asks a generative model to write the itinerary;
- trims the weather forecast to the trip's days;
- caches model answers in two tiers, memory and pickled files;
- validates and scores the model's JSON answer.

The front end then turns whatever came back into display text.

This project models that core as Dafny datatypes, functions, methods and one class, and proves what the code promises about them. The modules are:

- `JsonModel`, `Text`, `Sorting` and `Numeric`: shared models of Python values and builtins. These are JSON values with dicts kept in insertion order, ASCII `lower`/`strip`/`title`, the stable `sorted`, and `round`.
- `UtilityHelpers`, `DbHelpers`, `PlaceQueries` and `ItineraryHelpers`: the place helpers of `places/services`.
- `ItineraryHelpersCustom`, `Weather` and `ItineraryService`: the custom planner, the weather filter and the model-backed itinerary service.
- `PromptBuilder`, `ResponseParser` and `Cache`: the ML services that build prompts, parse answers and cache them.
- `FrontendHelpers`: the itinerary page's text helpers.

A Python dict is an association list in insertion order, and `d.get(k)` finds the first binding. A Python exception is the `Raise` case of a `Result`. The following are parameters of the operations that need them:

- functions the model cannot see into: `str(float)`, `json.loads`, `md5(json.dumps(...))`, `datetime.strptime`, `float(str)`, JavaScript's `String(number)` and `JSON.stringify`;
- the current time;
- I/O faults.

Behaviours of the code worth knowing:

- `validate_time_format` does not convert 12-hour times. `"2:30 PM"` becomes `"02:30"`, and a time with a one-digit minute falls back to `"09:00"`. This is stated by `ResponseParser.TwelveHourSuffixIgnored` and `ResponseParser.OneDigitMinuteRejected`.
- The confidence score of a parsed itinerary never exceeds 90, although the code caps it at 100 (`ResponseParser.ConfidenceBounds`, `ResponseParser.ParsedMetadata`). It is at least 15 whenever the itinerary has an overview.
- The cache evicts `len - max_size + 10` entries. A tier that overflows is cut to `max_size - 10` entries, or emptied when `max_size` is 10 or less, and the entry just stored is evicted along with the rest (`Cache.SmallLimitEmptiesMemory`).

## Model

| member | source | states |
|---|---|---|
| UtilityHelpers.SafeStr | backend/projectBackend/places/services/utility_helpers.py:31-39 | None renders as the empty text and a string as itself |
| UtilityHelpers.SafeStrHasParts | backend/projectBackend/places/services/utility_helpers.py:33-36 | the text of every list item and of every dict value occurs in the container's text |
| UtilityHelpers.FirstMatch | backend/projectBackend/places/services/utility_helpers.py:81-86 | the match is a preference whose lower-cased form occurs in the text; there is no match exactly when no preference occurs |
| UtilityHelpers.FirstMatchIsFirst | backend/projectBackend/places/services/utility_helpers.py:82-86 | the earliest preference in list order that occurs is the one chosen (the loop breaks at the first hit) |
| UtilityHelpers.MatchPreference | backend/projectBackend/places/services/utility_helpers.py:81-86 | the loop over the preferences returns the first match |
| UtilityHelpers.GroupOf | backend/projectBackend/places/services/utility_helpers.py:68-89 | a place lands in one of the preferences' groups or in `_others` |
| UtilityHelpers.MembersExact | backend/projectBackend/places/services/utility_helpers.py:68-89 | a group holds exactly the places classified into it, each as often as it occurs in the input |
| UtilityHelpers.GroupPlacesByPreference | backend/projectBackend/places/services/utility_helpers.py:42-91 | with no preferences all places go under `General` and `_others` is empty; otherwise the keys are the preferences plus `_others`, and each group is the places whose first match it is, in input order |
| UtilityHelpers.GroupSizesSum | backend/projectBackend/places/services/utility_helpers.py:65-89 | when every place's group is among a repeat-free list of keys, the group sizes add up to the number of places |
| UtilityHelpers.PreferenceGroupsPartition | backend/projectBackend/places/services/utility_helpers.py:65-89 | the preference groups and `_others` partition the places: no place is lost or duplicated |
| UtilityHelpers.PlaceId | backend/projectBackend/places/services/utility_helpers.py:101 | a truthy `id` wins; otherwise `place_id` is used |
| UtilityHelpers.NewPlaces | backend/projectBackend/places/services/utility_helpers.py:99-105 | the kept places are places of the input, no more of them than were given |
| UtilityHelpers.SeenIds.constructor | backend/projectBackend/places/services/utility_helpers.py:94 | the shared container starts with the ids it is given |
| UtilityHelpers.FirstUnhashable | backend/projectBackend/places/services/utility_helpers.py:101-102 | the index of the first place whose truthy id is a list or a dict, which `pid not in container_set` cannot hash; every place before it has a falsy or hashable id |
| UtilityHelpers.FilterNewPlaces | backend/projectBackend/places/services/utility_helpers.py:94-105 | succeeds exactly when no truthy id is unhashable, and then returns the places whose id is truthy and not yet known; otherwise raises `TypeError`; either way the container grows by exactly the new ids of the places before the failing one |
| UtilityHelpers.NewPlacesIds | backend/projectBackend/places/services/utility_helpers.py:102-104 | the ids known afterwards are the ids known before plus the ids of the returned places |
| UtilityHelpers.NewPlacesFresh | backend/projectBackend/places/services/utility_helpers.py:102-104 | every returned place has a truthy id that was unknown before, and no two returned places share an id |
| UtilityHelpers.NewPlacesKeepsFirst | backend/projectBackend/places/services/utility_helpers.py:100-104 | the first place carrying a truthy, unknown id is always kept |
| UtilityHelpers.NewPlacesFromFirst | backend/projectBackend/places/services/utility_helpers.py:100-104 | every kept place is the first of the input with its id |
| UtilityHelpers.NewPlacesSnoc | backend/projectBackend/places/services/utility_helpers.py:100-104 | filtering one more place keeps what was kept before, plus that place when its id is truthy and still unknown |
| UtilityHelpers.SeenAfterCovers | backend/projectBackend/places/services/utility_helpers.py:102-103 | afterwards the container knows every truthy id of the batch and forgets nothing |
| UtilityHelpers.FilterNewPlacesIdempotent | backend/projectBackend/places/services/utility_helpers.py:94-105 | filtering the same batch again against the updated container keeps nothing |
| UtilityHelpers.NothingNew | backend/projectBackend/places/services/utility_helpers.py:102 | a batch whose truthy ids are all known yields nothing |
| UtilityHelpers.PhotoNames | backend/projectBackend/places/services/utility_helpers.py:133 | at most three names, one per photo among the first three, in order; slicing a non-list or reading a non-dict photo raises |
| UtilityHelpers.ReadField | backend/projectBackend/places/services/utility_helpers.py:112-133 | a top-level field is read with `.get`; the photo names are a list of at most three |
| UtilityHelpers.ReadFields | backend/projectBackend/places/services/utility_helpers.py:112-134 | the record is built exactly when every field can be read, with one binding per field in the listed order |
| UtilityHelpers.FilterPlace | backend/projectBackend/places/services/utility_helpers.py:111-134 | a place that is not a dict raises `AttributeError`; otherwise the record has the twenty listed fields in order, each read from its source |
| UtilityHelpers.FilterPlacePhotos | backend/projectBackend/places/services/utility_helpers.py:133 | the `photos` field of a kept place is a list of at most three items |
| UtilityHelpers.FilterTextSearchPlaceData | backend/projectBackend/places/services/utility_helpers.py:108-137 | one filtered record per entry of `raw["places"]` (none by default), in order; a `places` value that cannot be iterated raises `TypeError`; otherwise the error is that of the first entry that cannot be filtered, every entry before it filtering cleanly |
| DbHelpers.CacheKeyIsLowerCase | backend/projectBackend/places/services/db_helpers.py:5-12 | the cache key is already lower-case |
| DbHelpers.CacheKeyIgnoresOrder | backend/projectBackend/places/services/db_helpers.py:11 | the order in which preferences are listed does not change the key |
| DbHelpers.NormalizeCanonical | backend/projectBackend/places/services/db_helpers.py:9-11 | normalising a part ignores its letter case and its surrounding white space |
| DbHelpers.NormalizeAllCanonical | backend/projectBackend/places/services/db_helpers.py:11 | normalising every preference ignores their case and padding |
| DbHelpers.CacheKeyIgnoresCaseAndPadding | backend/projectBackend/places/services/db_helpers.py:5-12 | lower-casing or stripping any part of the request does not change the key |
| DbHelpers.CacheKeyCountsRepeats | backend/projectBackend/places/services/db_helpers.py:11-12 | a repeated preference is not collapsed: it changes the key |
| DbHelpers.LowerJoin | backend/projectBackend/places/services/db_helpers.py:12 | joining lower-case parts with a lower-case separator gives lower-case text |
| DbHelpers.Normalize | backend/projectBackend/places/services/db_helpers.py:9-10 | `strip()` then `lower()` of one part of the key; `DbHelpers.NormalizeCanonical` states that case and padding do not matter |
| DbHelpers.PreferencesText | backend/projectBackend/places/services/db_helpers.py:11-12 | the preferences normalised, sorted and joined with `|`; `DbHelpers.CacheKeyIgnoresOrder` states that their order does not matter |
| DbHelpers.ExperienceText | backend/projectBackend/places/services/db_helpers.py:10 | `str(experience_type)`: a string is kept as it is, anything else is rendered |
| DbHelpers.BuildCacheKey | backend/projectBackend/places/services/db_helpers.py:5-12 | destination, rendered experience type and preferences, each normalised, joined with `__`; its properties are the `CacheKey` lemmas |
| DbHelpers.CacheKeyWithoutPreferences | backend/projectBackend/places/services/db_helpers.py:11-12 | without preferences (an empty list, or `None`, which becomes one) the key ends with `__` after the normalised destination and experience |
| Cache.NormalizeValue | backend/ML_models/services/cache_manager.py:41-44 | a list value is sorted into a permutation of itself, and sorting fails exactly when its items cannot be ordered; any other value is kept |
| Cache.NormalizedFields | backend/ML_models/services/cache_manager.py:39-44 | the only failure is `TypeError` from sorting a list |
| Cache.FieldsOk | backend/ML_models/services/cache_manager.py:39-44 | normalisation fails exactly when some present field cannot be normalised, and it binds only the fields asked for |
| Cache.NormalizedKeeps | backend/ML_models/services/cache_manager.py:29-46 | the normalised request holds exactly the allow-listed fields the request has, each normalised; it fails only when an allow-listed list cannot be sorted |
| Cache.NormalizeValueCanonical | backend/ML_models/services/cache_manager.py:42-43 | equal values, or lists of the same items in any order when no two of those items tie, normalise to the same value |
| Cache.NormalizedCanonical | backend/ML_models/services/cache_manager.py:29-46 | fields outside the allow-list, and the order of list items that do not tie, do not change the normalised request |
| Cache.TiedItemsKeepOrder | backend/ML_models/services/cache_manager.py:43 | items that tie in Python's ordering keep their input order, so `[1, 1.0]` and `[1.0, 1]` normalise differently |
| Cache.TiedPairStays | backend/ML_models/services/cache_manager.py:43 | a pair of tied items is left as it is |
| Cache.CacheFieldsDistinct | backend/ML_models/services/cache_manager.py:34-37 | the allow-listed field names are pairwise different |
| Cache.NormalizeData | backend/ML_models/services/cache_manager.py:29-46 | the loop over the allow-list computes the normalised request |
| Cache.GenerateKey | backend/ML_models/services/cache_manager.py:22-27 | the key is the digest of the normalised request, and a normalisation failure propagates |
| Cache.CacheKeyCanonical | backend/ML_models/services/cache_manager.py:22-46 | requests that differ only in fields outside the allow-list, or in the order of list items that do not tie, share a cache key |
| Cache.ExpiryMonotone | backend/ML_models/services/cache_manager.py:109-111 | with a non-negative ttl a fresh entry is live, and once expired an entry stays expired |
| Cache.FindIn | backend/ML_models/services/cache_manager.py:52-53 | a key is found exactly when some binding has it, and what is found is that binding |
| Cache.Store | backend/ML_models/services/cache_manager.py:94 | after `d[k] = e` the key maps to `e` |
| Cache.StoreOthers | backend/ML_models/services/cache_manager.py:94 | storing one key changes no other key's binding, and it grows the table only for a new key |
| Cache.StoreDistinct | backend/ML_models/services/cache_manager.py:94 | storing keeps keys unique |
| Cache.Without | backend/ML_models/services/cache_manager.py:124-125 | deleting keys never grows the table |
| Cache.WithoutMembers | backend/ML_models/services/cache_manager.py:124-125 | what remains is exactly the bindings whose keys were not deleted |
| Cache.WithoutFind | backend/ML_models/services/cache_manager.py:59 | deleting some keys leaves the other keys' bindings as they were, and the deleted keys are gone |
| Cache.WithoutOwnKeys | backend/ML_models/services/cache_manager.py:143-147 | deleting every key of a table empties it |
| Cache.Oldest | backend/ML_models/services/cache_manager.py:118-124 | at most as many victims as entries, taken from the sorted table |
| Cache.EvictSize | backend/ML_models/services/cache_manager.py:116-125 | a tier within bounds is left alone; an overfull tier keeps `max_size - 10` entries, or none when `max_size` is below 10 |
| Cache.EvictBound | backend/ML_models/services/cache_manager.py:116-125 | after a cleanup a tier holds at most `max_size` entries |
| Cache.EvictOldest | backend/ML_models/services/cache_manager.py:116-125 | every entry a cleanup deletes is at least as old as every entry it keeps |
| Cache.VictimNotNewer | backend/ML_models/services/cache_manager.py:118-124 | a victim taken from the front of the timestamp-sorted table is no newer than any survivor |
| Cache.PrunedDistinct | backend/ML_models/services/cache_manager.py:128-137 | a partial or complete file cleanup keeps keys unique |
| Cache.PrunedMembers | backend/ML_models/services/cache_manager.py:128-137 | a cleanup keeps only bindings of the tier |
| Cache.GetCounts | backend/ML_models/services/cache_manager.py:48-82 | a hit counts one hit and a miss at most one miss; without a file fault every call counts exactly once |
| Cache.GetReturnsLive | backend/ML_models/services/cache_manager.py:52-78 | `get` returns the live entry the key then has in memory, which is the one memory had or the one promoted from file; memory keeps no expired entry for the key |
| Cache.GetFrame | backend/ML_models/services/cache_manager.py:52-78 | `get` touches only the key it is asked for, and removes that key's file only when the file has expired |
| Cache.GetValid | backend/ML_models/services/cache_manager.py:48-82 | `get` keeps both tiers free of duplicate keys |
| Cache.SetFacts | backend/ML_models/services/cache_manager.py:84-107 | `set` leaves the counters alone, brings no entry into memory but the one it stores, and keeps the memory tier within `max_size`; a failed file write still leaves the entry in memory and the files as they were |
| Cache.SetValid | backend/ML_models/services/cache_manager.py:84-107 | `set` keeps both tiers free of duplicate keys |
| Cache.GetAfterSet | backend/ML_models/services/cache_manager.py:84-102 | a value just stored is returned by a `get` within its time to live, whatever the file tier does, when the store did not overflow the memory tier |
| Cache.SmallLimitEmptiesMemory | backend/ML_models/services/cache_manager.py:116-125 | with `max_size` of 10 or less, a `set` that overflows the memory tier empties it, the value just stored included |
| Cache.CacheManager.constructor | backend/ML_models/services/cache_manager.py:14-20 | the cache starts with an empty memory tier, the given file tier and zero counters |
| Cache.CacheManager.Get | backend/ML_models/services/cache_manager.py:48-82 | the new state and the answer are those of the `get` step |
| Cache.CacheManager.Set | backend/ML_models/services/cache_manager.py:84-107 | the new state is that of the `set` step |
| Cache.CacheManager.CleanupCache | backend/ML_models/services/cache_manager.py:113-139 | memory is evicted completely, the files up to the first failing deletion, and the counters are kept |
| Cache.CacheManager.EvictMemory | backend/ML_models/services/cache_manager.py:116-125 | the memory tier is evicted and nothing else changes |
| Cache.CacheManager.PruneFiles | backend/ML_models/services/cache_manager.py:128-139 | the file tier is pruned up to the first failing deletion and nothing else changes |
| Cache.CacheManager.Clear | backend/ML_models/services/cache_manager.py:141-149 | memory is emptied; the files are deleted up to the first failing deletion, all of them when none fails; the counters are kept |
| Cache.CacheManager.GetStats | backend/ML_models/services/cache_manager.py:151-162 | the counts and tier sizes as they are, and a hit rate equal to hits over requests times 100, or 0 with no requests, always between 0 and 100 |
| Cache.Normalized | backend/ML_models/services/cache_manager.py:29-46 | the allow-listed fields the request has, in allow-list order, lists sorted; `Cache.NormalizedKeeps` and `Cache.FieldsOk` state what it keeps and when it fails |
| Cache.CacheKey | backend/ML_models/services/cache_manager.py:22-27 | the digest of the normalised request, or the normalisation error; `Cache.CacheKeyCanonical` states what it ignores |
| Cache.GetStep | backend/ML_models/services/cache_manager.py:48-82 | `get`: a live memory entry is a hit; an expired one is deleted and the file tier is asked; `Cache.GetCounts`, `Cache.GetReturnsLive` and `Cache.GetFrame` state its effects |
| Cache.FileStage | backend/ML_models/services/cache_manager.py:61-78 | the file half of `get`: a live file is loaded into memory and counted a hit, an expired one is deleted, and a missing one is a miss; a file fault returns `None` and counts nothing |
| Cache.SetStep | backend/ML_models/services/cache_manager.py:84-107 | `set`: the entry is stored in memory, then in its file, then both tiers are cleaned up; a write fault skips the rest; `Cache.SetFacts` and `Cache.GetAfterSet` state its effects |
| Cache.Evict | backend/ML_models/services/cache_manager.py:116-125 | a full cleanup of one tier; `Cache.EvictSize`, `Cache.EvictBound` and `Cache.EvictOldest` state what it leaves |
| Cache.Pruned | backend/ML_models/services/cache_manager.py:128-137 | a file cleanup stopped after `done` deletions: the first `done` of the oldest `size - max_size + 10` files are gone; `Cache.PrunedDistinct` and `Cache.PrunedMembers` state what it keeps |
| ItineraryHelpers.ExtractText | backend/projectBackend/places/services/itinerary_helpers.py:7-10 | a dict with `text` gives that text, a string is returned as it is, and anything else gives None |
| ItineraryHelpers.Landmark | backend/projectBackend/places/services/itinerary_helpers.py:55-62 | a landmark that is a dict becomes a two-field record; anything else raises `AttributeError` |
| ItineraryHelpers.Location | backend/projectBackend/places/services/itinerary_helpers.py:64-100 | a truthy `location` always succeeds; the result is None or a `lat`/`lng` pair |
| ItineraryHelpers.MapsLinks | backend/projectBackend/places/services/itinerary_helpers.py:71-81 | reading the links fails exactly when a truthy `googleMapsLinks` is not a dict |
| ItineraryHelpers.SimplifiedFails | backend/projectBackend/places/services/itinerary_helpers.py:13-107 | simplifying fails exactly when a landmark is not a dict, the location cannot be read, or the links cannot be read |
| ItineraryHelpers.SimplifiedShape | backend/projectBackend/places/services/itinerary_helpers.py:83-107 | a simplified place has exactly the planner's keys in order; it keeps the id and the rating, reduces every landmark, and carries the location record |
| ItineraryHelpers.SimplifyPlaceForAi | backend/projectBackend/places/services/itinerary_helpers.py:13-107 | the method, with its landmark loop, computes the simplified record or the first error |
| ItineraryHelpers.SimplifyAll | backend/projectBackend/places/services/itinerary_helpers.py:193-195 | every place is simplified in order, and the first failure raises |
| ItineraryHelpers.FlattenOrder | backend/projectBackend/places/services/itinerary_helpers.py:126-156 | the groups are read in preference order and then `_others`, or `General` and then `_others` when there are no preferences |
| ItineraryHelpers.ItemFault | backend/projectBackend/places/services/itinerary_helpers.py:129-130 | a member raises `AttributeError` exactly when it is not a dict, and `TypeError` exactly when it is a dict whose truthy id is a list or a dict |
| ItineraryHelpers.FirstFault | backend/projectBackend/places/services/itinerary_helpers.py:128-156 | nothing is raised exactly when every member reads; otherwise the error is that of the first member that raises |
| ItineraryHelpers.GroupItems | backend/projectBackend/places/services/itinerary_helpers.py:128-145 | a missing group reads as empty, a list is read as it is, a value that cannot be iterated raises `TypeError`, and a grouping that is not a dict raises `AttributeError` |
| ItineraryHelpers.Flattened | backend/projectBackend/places/services/itinerary_helpers.py:110-158 | the flattening succeeds exactly when every member read is a dict with a hashable or falsy id and every group can be iterated; a member that raises decides the error |
| ItineraryHelpers.FlattenGroupedPlaces | backend/projectBackend/places/services/itinerary_helpers.py:110-158 | the loops over the groups compute the flattened list or its first error |
| ItineraryHelpers.AppendNew | backend/projectBackend/places/services/itinerary_helpers.py:145-149 | one group's loop raises what its first faulty member raises; otherwise it appends the members whose truthy id is not yet seen and records their ids |
| ItineraryHelpers.ReadStops | backend/projectBackend/places/services/itinerary_helpers.py:144-156 | once a group cannot be iterated, no later group is read |
| ItineraryHelpers.ReadGrows | backend/projectBackend/places/services/itinerary_helpers.py:144-156 | reading more groups only adds members behind those already read |
| ItineraryHelpers.FaultSticks | backend/projectBackend/places/services/itinerary_helpers.py:144-156 | a member that raises among the groups read so far decides the error of the whole flattening |
| ItineraryHelpers.ReadFailureSticks | backend/projectBackend/places/services/itinerary_helpers.py:144-156 | a group that cannot be iterated, after members that all read, fails the whole flattening with its own error |
| ItineraryHelpers.UnhashableIdRaises | backend/projectBackend/places/services/itinerary_helpers.py:135-137 | a list id in `_others` makes the flattening raise `TypeError` |
| ItineraryHelpers.NewPlacesFirstOccurrences | backend/projectBackend/places/services/itinerary_helpers.py:129-132 | the kept places are exactly the first place of each truthy id, in order |
| ItineraryHelpers.FlattenedFirstOccurrences | backend/projectBackend/places/services/itinerary_helpers.py:110-158 | the flattened list keeps exactly the first place of each truthy id of the groups read, in group order |
| ItineraryHelpers.FlattenIgnoresOtherGroups | backend/projectBackend/places/services/itinerary_helpers.py:110-158 | a group that is not read (any key but the preferences and `_others`, or `General` and `_others`) has no effect |
| ItineraryHelpers.SortByRating | backend/projectBackend/places/services/itinerary_helpers.py:181-186 | ranking raises `TypeError` exactly when two rated scores are unequal to Python and not both numbers or both strings; two equal scores, dicts included, are only compared with `==`; ratings that are all numbers or all strings never fail |
| ItineraryHelpers.OrderableComparable | backend/projectBackend/places/services/itinerary_helpers.py:181-186 | scores that are all numbers or all strings pass the comparability test |
| ItineraryHelpers.ComparableScoresCases | backend/projectBackend/places/services/itinerary_helpers.py:181-186 | rated scores that never raise are all numbers, all strings, or all equal to one another and then share one sort key |
| ItineraryHelpers.EqualDictRatingsKeepOrder | backend/projectBackend/places/services/itinerary_helpers.py:181-186 | two places rated with the same dict are ranked without error and keep their order |
| ItineraryHelpers.UnequalDictRatingsRaise | backend/projectBackend/places/services/itinerary_helpers.py:181-186 | two places rated with different dicts raise `TypeError` |
| ItineraryHelpers.SortByRatingCorrect | backend/projectBackend/places/services/itinerary_helpers.py:181-186 | the ranking is a permutation of its input; every rated place comes before every unrated one; numeric ratings never increase; places with equal keys keep their order |
| ItineraryHelpers.Slice | backend/projectBackend/places/services/itinerary_helpers.py:213 | a slice is no longer than its bounds allow |
| ItineraryHelpers.AttractionsShape | backend/projectBackend/places/services/itinerary_helpers.py:202-209 | a day has no attractions when the pool is empty and five otherwise, all from the pool, and pairwise different when the pool holds five or more different places |
| ItineraryHelpers.EveryAttractionShown | backend/projectBackend/places/services/itinerary_helpers.py:203-209 | the k-th ranked attraction is shown on day k / 5 in slot k % 5 |
| ItineraryHelpers.RestaurantWindowShape | backend/projectBackend/places/services/itinerary_helpers.py:211-217 | the restaurant block has at most three places and is empty only when there are no restaurants; it is the day's own window while restaurants last and the top three afterwards |
| ItineraryHelpers.EveryRestaurantOffered | backend/projectBackend/places/services/itinerary_helpers.py:212-213 | the k-th ranked restaurant is offered on day k / 3 |
| ItineraryHelpers.PlanShape | backend/projectBackend/places/services/itinerary_helpers.py:199-235 | days are numbered from 1, breakfast, lunch and dinner offer the same block, and day 1 alone gets the top five lodgings |
| ItineraryHelpers.PickAttractions | backend/projectBackend/places/services/itinerary_helpers.py:203-209 | the inner loop picks the day's attractions |
| ItineraryHelpers.PlanDay | backend/projectBackend/places/services/itinerary_helpers.py:200-235 | one iteration of the day loop builds that day's plan |
| ItineraryHelpers.DayPlans | backend/projectBackend/places/services/itinerary_helpers.py:199-235 | one plan per day, none for a non-positive `days`, and day d's plan is the one that day defines |
| ItineraryHelpers.BuildDaywisePlacePlan | backend/projectBackend/places/services/itinerary_helpers.py:161-237 | the plan succeeds exactly when the three ranked, simplified pools can be built; it has `days` entries (none when `days` is not positive), each dealt from those pools |
| ItineraryHelpers.Simplified | backend/projectBackend/places/services/itinerary_helpers.py:13-107 | the simplified record of one place, or the error of its first failing step (landmarks, location, links); `ItineraryHelpers.SimplifiedFails` and `ItineraryHelpers.SimplifiedShape` state both |
| ItineraryHelpers.PlanFor | backend/projectBackend/places/services/itinerary_helpers.py:199-235 | day `day_idx`: five attractions by rotation, the day's restaurant window for each meal, lodging on day 1 only; `ItineraryHelpers.AttractionsShape`, `ItineraryHelpers.EveryAttractionShown` and `ItineraryHelpers.RestaurantWindowShape` state its shape |
| ItineraryHelpersCustom.NormalizeId | backend/projectBackend/places/services/itinerary_helpers_custom.py:31-32 | a truthy `id` wins, then a truthy `place_id`, and otherwise `displayName` |
| ItineraryHelpersCustom.TypeSet | backend/projectBackend/places/services/itinerary_helpers_custom.py:38 | building the set of types can fail only with `TypeError` |
| ItineraryHelpersCustom.Categorize | backend/projectBackend/places/services/itinerary_helpers_custom.py:41-48 | a place can be filed exactly when its types form a set |
| ItineraryHelpersCustom.CategorizePriority | backend/projectBackend/places/services/itinerary_helpers_custom.py:25-48 | attraction types win over lodging, and lodging over restaurant; a place is filed as lodging or restaurant only when it has that type, and anything else is an attraction |
| ItineraryHelpersCustom.FiledFailureSticks | backend/projectBackend/places/services/itinerary_helpers_custom.py:37-48 | once a place cannot be filed, the whole segregation raises that error |
| ItineraryHelpersCustom.FiledDicts | backend/projectBackend/places/services/itinerary_helpers_custom.py:37-48 | every place filed without error is a dict with a hashable id |
| ItineraryHelpersCustom.FiledIds | backend/projectBackend/places/services/itinerary_helpers_custom.py:37-51 | the ids filed are exactly the keys of the id map, and every place's id is among them |
| ItineraryHelpersCustom.FiledCategory | backend/projectBackend/places/services/itinerary_helpers_custom.py:37-48 | each place's id is in the set of its own category |
| ItineraryHelpersCustom.IdMapKeepsLast | backend/projectBackend/places/services/itinerary_helpers_custom.py:51 | places sharing an id collapse to the last of them |
| ItineraryHelpersCustom.IdMapValues | backend/projectBackend/places/services/itinerary_helpers_custom.py:51 | every value of the id map is one of the places, stored under its own id |
| ItineraryHelpersCustom.SharedIdInTwoCategories | backend/projectBackend/places/services/itinerary_helpers_custom.py:37-55 | a museum and a hotel with the same id put that id in two categories, and both list the hotel |
| ItineraryHelpersCustom.FileIds | backend/projectBackend/places/services/itinerary_helpers_custom.py:35-48 | the filing loop computes the id sets or the first error |
| ItineraryHelpersCustom.BuildIdMap | backend/projectBackend/places/services/itinerary_helpers_custom.py:51 | the comprehension computes the id map |
| ItineraryHelpersCustom.PlacesOf | backend/projectBackend/places/services/itinerary_helpers_custom.py:53-55 | one place per id of the set, each once, in some order |
| ItineraryHelpersCustom.Pick | backend/projectBackend/places/services/itinerary_helpers_custom.py:53-55 | the places of the listed ids, in that order |
| ItineraryHelpersCustom.PickSimplifies | backend/projectBackend/places/services/itinerary_helpers_custom.py:58-60 | a list simplifies exactly when the place of every id it lists does, and otherwise fails with `AttributeError` |
| ItineraryHelpersCustom.SimplifiedError | backend/projectBackend/places/services/itinerary_helpers_custom.py:58-60 | simplifying a place can fail only with `AttributeError` |
| ItineraryHelpersCustom.SegregateAndSimplifyPlaces | backend/projectBackend/places/services/itinerary_helpers_custom.py:18-66 | a filing error is raised as it is; otherwise each category lists the kept place of each of its ids once, simplified, and the call fails exactly when one of those places cannot be simplified |
| ItineraryHelpersCustom.BuildPlacesPlan | backend/projectBackend/places/services/itinerary_helpers_custom.py:69-88 | one plan per day, none for a non-positive `days`, each as that day defines it |
| ItineraryHelpersCustom.CustomAttractionsOnce | backend/projectBackend/places/services/itinerary_helpers_custom.py:72-75 | attractions never repeat: the k-th is shown on day k / 3 only, a day has at most three, and a day past the end of the list has none |
| ItineraryHelpersCustom.CustomMealsAndLodging | backend/projectBackend/places/services/itinerary_helpers_custom.py:77-85 | days are numbered from 1, every meal offers the first three restaurants, and day 1 alone gets the first lodging |
| ItineraryHelpersCustom.FileOne | backend/projectBackend/places/services/itinerary_helpers_custom.py:37-48 | one round of the filing loop: the place's id is added to the set its types choose, or the loop raises; `ItineraryHelpersCustom.Categorize` states when |
| ItineraryHelpersCustom.Filed | backend/projectBackend/places/services/itinerary_helpers_custom.py:35-48 | the three id sets after the whole loop, or its first error; `ItineraryHelpersCustom.FiledIds` and `ItineraryHelpersCustom.FiledCategory` state what they hold |
| ItineraryHelpersCustom.IdMap | backend/projectBackend/places/services/itinerary_helpers_custom.py:51 | `{normalize_id(p): p}` with the last place of each id winning; `ItineraryHelpersCustom.IdMapKeepsLast` and `ItineraryHelpersCustom.IdMapValues` state this |
| ItineraryHelpersCustom.CustomPlanFor | backend/projectBackend/places/services/itinerary_helpers_custom.py:73-86 | day `d`: the next three attractions, the first three restaurants for every meal, the first lodging on the first day only; `ItineraryHelpersCustom.CustomAttractionsOnce` and `ItineraryHelpersCustom.CustomMealsAndLodging` state its shape |
| ItineraryService.Find | backend/projectBackend/places/services/itinerary.py:29 | `find` gives -1 exactly when the character is absent, and otherwise its first index |
| ItineraryService.RFind | backend/projectBackend/places/services/itinerary.py:30 | `rfind` gives -1 exactly when the character is absent, and otherwise its last index |
| ItineraryService.SliceBound | backend/projectBackend/places/services/itinerary.py:31 | a slice bound inside the string is used as it is, and any bound lands inside the string |
| ItineraryService.SpanBetweenBraces | backend/projectBackend/places/services/itinerary.py:29-31 | with a `{` before the last `}`, the span runs from the first `{` to the last `}`, both included |
| ItineraryService.SpanWithoutClosingBrace | backend/projectBackend/places/services/itinerary.py:30-31 | without a `}` the end index is 0 and the span is empty |
| ItineraryService.SpanBracesReversed | backend/projectBackend/places/services/itinerary.py:29-31 | a last `}` before the first `{` gives an empty span |
| ItineraryService.SpanWithoutOpeningBrace | backend/projectBackend/places/services/itinerary.py:29-31 | without a `{` the start index -1 points at the last character, so the span is `"}"` when the text ends with a brace and empty otherwise |
| ItineraryService.WholeObjectKept | backend/projectBackend/places/services/itinerary.py:26-31 | a reply that is one object padded with white space is handed over whole |
| ItineraryService.StripPadding | backend/projectBackend/places/services/itinerary.py:26 | stripping removes exactly the white-space padding around a body |
| ItineraryService.RequestOf | backend/projectBackend/places/services/itinerary.py:41-50 | reading the request succeeds exactly when it is a dict |
| ItineraryService.EmptyRequestDefaults | backend/projectBackend/places/services/itinerary.py:41-50 | an empty request asks for a three-day, moderate, balanced trip to "an amazing place" for one person, planned by the model, with no places and no weather |
| ItineraryService.RequestFieldsKept | backend/projectBackend/places/services/itinerary.py:42-50 | a field the request gives is used as given; `weather` has no default |
| ItineraryService.PreferencesText | backend/projectBackend/places/services/itinerary.py:60 | falsy preferences read `General travel` |
| ItineraryService.BuildPromptInputs | backend/projectBackend/places/services/itinerary.py:39-60 | the prompt is built from the request as read and its preferences text |
| ItineraryService.GenerateItinerary | backend/projectBackend/places/services/itinerary.py:22-37 | an itinerary is produced exactly when the prompt can be built, the model answers, and the span of the stripped reply decodes; the itinerary is that decoded span |
| ItineraryService.NoClosingBraceFails | backend/projectBackend/places/services/itinerary.py:29-33 | a reply without a closing brace is never decoded, because `json.loads` sees the empty string |
| ItineraryService.PySlice | backend/projectBackend/places/services/itinerary.py:31 | `s[a:b]` with Python's clamping of negative and oversized bounds; `ItineraryService.SliceBound` states the clamping |
| ItineraryService.Span | backend/projectBackend/places/services/itinerary.py:29-31 | the text from the first `{` to the last `}`; the `Span` lemmas state each case |
| ItineraryService.JsonText | backend/projectBackend/places/services/itinerary.py:26-31 | the span of the stripped reply; `ItineraryService.WholeObjectKept` states that a padded object is kept whole |
| PlaceQueries.TakeDistinct | backend/projectBackend/places/services/place_queries.py:52-159 | `list(set(queries))[:limit]` gives pairwise-distinct queries drawn from the input, `limit` of them or all of them when there are fewer |
| PlaceQueries.DistinctCard | backend/projectBackend/places/services/place_queries.py:52 | a list of distinct strings has as many elements as entries |
| PlaceQueries.CollectMembers | backend/projectBackend/places/services/place_queries.py:44-49 | a query is collected exactly when some preference contributes it |
| PlaceQueries.ExtendWithAddOns | backend/projectBackend/places/services/place_queries.py:107-157 | the loop appends every preference's add-on queries, in preference order, after the base row |
| PlaceQueries.TouristCandidateSource | backend/projectBackend/places/services/place_queries.py:44-49 | a tourist candidate is a table query of some preference whose stripped, title-cased form is a key, or `"<preference lower-cased> attractions"` for one that is not |
| PlaceQueries.TouristQueryOf | backend/projectBackend/places/services/place_queries.py:45-49 | one preference's tourist queries, by case |
| PlaceQueries.GenerateTouristQueries | backend/projectBackend/places/services/place_queries.py:38-53 | at most eight pairwise-distinct queries, all of the candidates when there are fewer, each a candidate of some preference; the experience type takes no part |
| PlaceQueries.ExperienceKey | backend/projectBackend/places/services/place_queries.py:59-120 | a list becomes its first item, or `"moderate"` when empty, and the key is lower-cased |
| PlaceQueries.RestaurantTablesDistinct | backend/projectBackend/places/services/place_queries.py:64-94 | every restaurant row, the moderate fallback included, lists six different queries |
| PlaceQueries.RestaurantCandidatesMany | backend/projectBackend/places/services/place_queries.py:91-110 | the candidates always hold at least six different queries |
| PlaceQueries.RestaurantCandidateSource | backend/projectBackend/places/services/place_queries.py:91-110 | a restaurant candidate comes from the experience row or from the cuisine add-on of some preference |
| PlaceQueries.GenerateRestaurantQueries | backend/projectBackend/places/services/place_queries.py:55-112 | always exactly five distinct queries, each a candidate |
| PlaceQueries.LodgingTablesDistinct | backend/projectBackend/places/services/place_queries.py:123-149 | every lodging row lists at least four different queries and no eco or spa query |
| PlaceQueries.LodgingCandidatesMany | backend/projectBackend/places/services/place_queries.py:146-157 | the candidates always hold at least four different queries |
| PlaceQueries.LodgingAddOnKeys | backend/projectBackend/places/services/place_queries.py:153-157 | a preference adds the eco queries exactly when it cleans to `Eco-Friendly Travel`, and the spa queries exactly when it cleans to `Relaxation` |
| PlaceQueries.LodgingAddOnsOnlyWhenAsked | backend/projectBackend/places/services/place_queries.py:152-157 | eco queries appear exactly when some preference is eco-friendly travel, and spa queries exactly when some preference is relaxation |
| PlaceQueries.GenerateLodgingQueries | backend/projectBackend/places/services/place_queries.py:114-159 | four or five distinct queries, each from the experience row or a preference add-on |
| PlaceQueries.TouristQueriesFor | backend/projectBackend/places/services/place_queries.py:45-49 | the table's queries for a known title-cased preference, else `<preference lower-cased> attractions`; `PlaceQueries.TouristQueryOf` states each case |
| PlaceQueries.RestaurantTableFor | backend/projectBackend/places/services/place_queries.py:64-94 | the budget or luxury row for those keys and the moderate row for any other; `PlaceQueries.RestaurantTablesDistinct` states the rows are distinct |
| PlaceQueries.CuisineAddOn | backend/projectBackend/places/services/place_queries.py:97-110 | the cuisine queries of a title-cased preference that is a key, and none otherwise |
| PlaceQueries.LodgingTableFor | backend/projectBackend/places/services/place_queries.py:123-149 | the budget or luxury row for those keys and the moderate row for any other; `PlaceQueries.LodgingTablesDistinct` states the rows are distinct |
| PlaceQueries.LodgingAddOn | backend/projectBackend/places/services/place_queries.py:152-157 | the eco or spa queries of those two preferences, and none otherwise; `PlaceQueries.LodgingAddOnKeys` states this |
| Weather.CurrentDayOrNight | backend/projectBackend/places/services/get_weather.py:16-28 | it is `day` exactly when `isDaytime` is truthy, and the humidity is passed through unchecked |
| Weather.CurrentSectionNotDict | backend/projectBackend/places/services/get_weather.py:20-21 | a `temperature` section that is present but not a dict makes the current filter raise `AttributeError` |
| Weather.ReplaceZ | backend/projectBackend/places/services/get_weather.py:45 | no `Z` is left, and a text without one is unchanged |
| Weather.DateOfCases | backend/projectBackend/places/services/get_weather.py:36-53 | the date comes from `displayDate` whenever that is a valid calendar date, and a day name is given only together with a parsed date |
| Weather.MaxPresent | backend/projectBackend/places/services/get_weather.py:78 | an absent value leaves the other one as the result |
| Weather.MaxPresentOfNumbers | backend/projectBackend/places/services/get_weather.py:73-78 | of two numeric chances the larger is reported |
| Weather.MaxPresentMixed | backend/projectBackend/places/services/get_weather.py:78 | a number and a string cannot be compared and raise `TypeError` |
| Weather.Humidity | backend/projectBackend/places/services/get_weather.py:83-86 | with one side absent the other side is taken as it is |
| Weather.HumidityAverage | backend/projectBackend/places/services/get_weather.py:84 | with both sides numbers, the mean rounded to a whole number, halves to even |
| Weather.HumidityBetween | backend/projectBackend/places/services/get_weather.py:84 | the rounded mean of two whole percentages lies between them |
| Weather.HumidityNotNumbers | backend/projectBackend/places/services/get_weather.py:83-84 | two present values that are not both numbers raise `TypeError` |
| Weather.PreferDayCases | backend/projectBackend/places/services/get_weather.py:89-92 | the daytime wind value wins whenever it is not None; otherwise the night-time one is read |
| Weather.DescriptionPrefersDay | backend/projectBackend/places/services/get_weather.py:61-70 | the description is the daytime text unless that is falsy, and only then the night-time text |
| Weather.DayWeatherOf | backend/projectBackend/places/services/get_weather.py:35-105 | a day that is not a dict raises; otherwise each field of the record is the one its own part computes |
| Weather.EmptyDay | backend/projectBackend/places/services/get_weather.py:35-105 | an empty day gives a record of Nones |
| Weather.ForecastOneRecordPerDay | backend/projectBackend/places/services/get_weather.py:32-108 | one record per forecast day, in the same order |
| Weather.ForecastWithoutDays | backend/projectBackend/places/services/get_weather.py:32-108 | a forecast without days filters to an empty list of days |
| Weather.FilterDays | backend/projectBackend/places/services/get_weather.py:35-105 | the loop appends records in day order, and the first day that raises ends it |
| Weather.FilterForecast | backend/projectBackend/places/services/get_weather.py:31-108 | the forecast branch computes the filtered forecast |
| Weather.FilterWeatherData | backend/projectBackend/places/services/get_weather.py:14-112 | `current` and `forecast` select their filters, and any other mode raises `ValueError` |
| Weather.RequestedDays | backend/projectBackend/places/services/get_weather.py:119-120 | never more than seven days are asked for, and seven or fewer are asked as given |
| Weather.CurrentWeather | backend/projectBackend/places/services/get_weather.py:16-28 | the current-conditions record; `Weather.CurrentDayOrNight` and `Weather.CurrentSectionNotDict` state its cases |
| Weather.DateOf | backend/projectBackend/places/services/get_weather.py:36-53 | the date and day name of one forecast day; `Weather.DateOfCases` states its cases |
| Weather.Temperatures | backend/projectBackend/places/services/get_weather.py:56-58 | the daily maximum and minimum and the unit of the maximum, or of the minimum when that one is falsy |
| Weather.Description | backend/projectBackend/places/services/get_weather.py:61-70 | the daytime description `or` the night-time one; `Weather.DescriptionPrefersDay` states this |
| Weather.Precipitation | backend/projectBackend/places/services/get_weather.py:73-78 | the larger present chance of precipitation; `Weather.MaxPresent` and its lemmas state this |
| Weather.DailyHumidity | backend/projectBackend/places/services/get_weather.py:81-86 | the rounded mean of both humidities, or the one present; `Weather.HumidityAverage` and `Weather.HumidityBetween` state this |
| Weather.Wind | backend/projectBackend/places/services/get_weather.py:89-92 | speed and unit of the wind, each preferring the daytime value; `Weather.PreferDayCases` states this |
| Weather.Forecast | backend/projectBackend/places/services/get_weather.py:32-108 | one filtered record per forecast day; `Weather.ForecastOneRecordPerDay` states this |
| PromptBuilder.FirstContainedFinds | backend/ML_models/services/prompt_builder.py:306-308 | the search returns the note of the first key found in the text, and nothing exactly when no key is found |
| PromptBuilder.CulturalFirstMatch | backend/ML_models/services/prompt_builder.py:294-310 | the note is that of the first key, in table order, found in the lower-cased destination, and the generic advice when there is none |
| PromptBuilder.UpperNeverInLower | backend/ML_models/services/prompt_builder.py:299-307 | a key with an upper-case letter never occurs in a lower-cased text |
| PromptBuilder.UaeNeverMatches | backend/ML_models/services/prompt_builder.py:299-307 | the `UAE` entry is written in capitals, so no destination gets its note |
| PromptBuilder.SeasonsOfMonths | backend/ML_models/services/prompt_builder.py:329-336 | the seasons are June to August, December to February, March to May and September to November |
| PromptBuilder.SeasonalCases | backend/ML_models/services/prompt_builder.py:312-339 | no date gives the planning advice, a date that does not parse gives the general advice, and a parsed date gives its season's note, which is neither of the other two |
| PromptBuilder.ItineraryPromptValues | backend/ML_models/services/prompt_builder.py:56-102 | the prompt can be built only for a string destination and a numeric budget |
| PromptBuilder.EmptyRequestDefaults | backend/ML_models/services/prompt_builder.py:56-72 | an empty request plans three days for two people on a budget of 1000, mid-range, for general tourism, with no dates, the generic cultural advice and the no-date seasonal advice |
| PromptBuilder.TextBudgetFails | backend/ML_models/services/prompt_builder.py:58-99 | a textual budget makes `budget * 0.4` raise |
| PromptBuilder.TableGet | backend/ML_models/services/prompt_builder.py:240 | `dict.get` gives the default for a missing key and the first entry's value for a present key |
| PromptBuilder.AlternativePromptValues | backend/ML_models/services/prompt_builder.py:231-246 | an unknown type gets the default instruction, and the title-cased type keeps its length |
| PromptBuilder.KnownAlternatives | backend/ML_models/services/prompt_builder.py:231-240 | each of the six known types gets its own instruction |
| PromptBuilder.FirstContained | backend/ML_models/services/prompt_builder.py:306-308 | the note of the first table key found in the text; `PromptBuilder.FirstContainedFinds` states this |
| PromptBuilder.CulturalConsiderations | backend/ML_models/services/prompt_builder.py:294-310 | the note of the first key found in the lower-cased destination, else the generic advice; `PromptBuilder.CulturalFirstMatch` states this |
| PromptBuilder.SeasonOf | backend/ML_models/services/prompt_builder.py:329-336 | the season of a month, with the months checked in the order the code checks them; `PromptBuilder.SeasonsOfMonths` states the months of each |
| PromptBuilder.SeasonalConsiderations | backend/ML_models/services/prompt_builder.py:312-339 | the planning note without a date, the general note when the date does not parse, else the season's note; `PromptBuilder.SeasonalCases` states this |
| ResponseParser.DigitValue | backend/ML_models/services/response_parser.py:123-125 | a matched decimal digit has a value below ten |
| ResponseParser.DigitChar | backend/ML_models/services/response_parser.py:126 | the digit written for a value below ten reads back as that value |
| ResponseParser.DropSpaces | backend/ML_models/services/response_parser.py:123 | skipping the white space the pattern allows leaves a text that starts with no white space |
| ResponseParser.MatchTime | backend/ML_models/services/response_parser.py:123-125 | the pattern yields an hour of one or two digits and a minute of exactly two, both below 100 |
| ResponseParser.Pad2 | backend/ML_models/services/response_parser.py:126 | `{n:02d}` is two digits whose value is `n` |
| ResponseParser.ValidateTimeFormat | backend/ML_models/services/response_parser.py:118-131 | the result is always an `HH:MM` clock string: the matched hour and minute, zero-padded, or `09:00` when the text does not match |
| ResponseParser.ClockRoundTrip | backend/ML_models/services/response_parser.py:123-126 | the pattern reads back the hour and minute of every clock string it writes |
| ResponseParser.ValidateTimeFormatIdempotent | backend/ML_models/services/response_parser.py:118-131 | normalising a normalised time changes nothing |
| ResponseParser.StrLtConcat | backend/ML_models/services/response_parser.py:146 | string order on equal-length prefixes compares the prefixes first, then the rest |
| ResponseParser.StrLtChar | backend/ML_models/services/response_parser.py:146 | one-character strings are ordered as their characters |
| ResponseParser.Pad2Order | backend/ML_models/services/response_parser.py:126-146 | two-digit texts are ordered, and equal, exactly as their numbers |
| ResponseParser.ClockOrder | backend/ML_models/services/response_parser.py:126-146 | clock strings sort in order of hour, then minute: string order is time-of-day order |
| ResponseParser.TwelveHourSuffixIgnored | backend/ML_models/services/response_parser.py:123-126 | `2:30 PM` becomes `02:30`: the AM/PM suffix is ignored, not converted |
| ResponseParser.SpacedTimeAccepted | backend/ML_models/services/response_parser.py:123-126 | white space around the hour and the colon is accepted: ` 7 : 05` becomes `07:05` |
| ResponseParser.OneDigitMinuteRejected | backend/ML_models/services/response_parser.py:123-129 | `2:5 PM` does not match and becomes `09:00` |
| ResponseParser.ThreeDigitHourRejected | backend/ML_models/services/response_parser.py:123-129 | `123:45` does not match and becomes `09:00` |
| ResponseParser.ToFloat | backend/ML_models/services/response_parser.py:113-116 | `float(v)` fails only with ValueError or TypeError, and never on a number |
| ResponseParser.TimeOf | backend/ML_models/services/response_parser.py:108 | the stored time of an activity is always a clock string |
| ResponseParser.ValidateActivity | backend/ML_models/services/response_parser.py:100-116 | the validated activity is `ResponseParser.ValidActivity`'s, the two defaults, the normalised time and the coerced numbers |
| ResponseParser.CoerceFieldsStep | backend/ML_models/services/response_parser.py:111-116 | the field loop after `i + 1` rounds is one more coercion of its state after `i` |
| ResponseParser.CoerceFieldFrame | backend/ML_models/services/response_parser.py:112-116 | coercing one field leaves every other field as it was |
| ResponseParser.ValidActivityDefaults | backend/ML_models/services/response_parser.py:103-104 | a validated activity's title and type are its own, or `Activity` and `sightseeing` when missing |
| ResponseParser.ValidActivityKeeps | backend/ML_models/services/response_parser.py:107-116 | past the defaults only the time and the two number fields change |
| ResponseParser.ValidActivityTime | backend/ML_models/services/response_parser.py:105-108 | the time is the normalised form of the activity's own time, or of `09:00`, and is a clock string |
| ResponseParser.CoercedKeeps | backend/ML_models/services/response_parser.py:111-116 | coercing the numbers touches no field but `estimated_cost` and `duration_minutes` |
| ResponseParser.ActivityDefaultsFields | backend/ML_models/services/response_parser.py:103-105 | each of title, type and time keeps its value or gets its default |
| ResponseParser.ValidActivityNumbers | backend/ML_models/services/response_parser.py:111-116 | a number field is present afterwards exactly when it was before, and then holds its float, or `0.0` when `float` rejects it |
| ResponseParser.ValidActivityFrame | backend/ML_models/services/response_parser.py:100-116 | every field other than the five it handles is left as it was |
| ResponseParser.OneDigitMinuteActivity | backend/ML_models/services/response_parser.py:103-129 | an activity whose only field is `2:5 PM` ends up at `09:00`, titled `Activity`, of type `sightseeing` |
| ResponseParser.LenOf | backend/ML_models/services/response_parser.py:73 | `len` succeeds exactly on lists, strings and dicts |
| ResponseParser.ValidActivities | backend/ML_models/services/response_parser.py:94-96 | every activity keeps its place, dicts validated and others left alone |
| ResponseParser.ValidSchedule | backend/ML_models/services/response_parser.py:86-96 | every day keeps its place in the schedule |
| ResponseParser.WithOverview | backend/ML_models/services/response_parser.py:69-74 | adding the overview changes no other field |
| ResponseParser.ValidateActivities | backend/ML_models/services/response_parser.py:94-96 | the loop over a day's activities gives `ResponseParser.ValidActivities` of them |
| ResponseParser.AddSections | backend/ML_models/services/response_parser.py:66-83 | the section defaults give `ResponseParser.WithSections` of the itinerary |
| ResponseParser.ValidateDay | backend/ML_models/services/response_parser.py:87-96 | one round of the day loop gives `ResponseParser.ValidDay` of the day |
| ResponseParser.ValidateItineraryStructure | backend/ML_models/services/response_parser.py:64-98 | the validated itinerary is `ResponseParser.ValidatedStructure`'s, or the same error |
| ResponseParser.SectionOverview | backend/ML_models/services/response_parser.py:69-74 | a present overview is kept; a missing one is a generated trip whose duration is the schedule's length |
| ResponseParser.SectionScheduleAndBudget | backend/ML_models/services/response_parser.py:76-83 | a missing schedule becomes empty and a missing budget four zero categories; present ones are kept |
| ResponseParser.TwoDefaults | backend/ML_models/services/response_parser.py:76-83 | two `setdefault` calls on different keys each keep a present value or add their default |
| ResponseParser.SectionsFail | backend/ML_models/services/response_parser.py:69-74 | the sections fail exactly when the overview is missing and the schedule has no length |
| ResponseParser.ValidDayFields | backend/ML_models/services/response_parser.py:87-96 | a dict day gets its position from 1 as its number when it has none, and its list of activities (empty when missing or not a list) validated |
| ResponseParser.TotalsFields | backend/ML_models/services/response_parser.py:156-163 | one `{"total": t}` entry per category |
| ResponseParser.FormatBudgetShape | backend/ML_models/services/response_parser.py:151-169 | the budget holds the five categories in order, each with its total, then the grand total that is their sum; it fails exactly when a category total fails |
| ResponseParser.CategoryTotalCases | backend/ML_models/services/response_parser.py:157-163 | a missing category, a dict without total, a string or a list count 0; a bare number counts as itself |
| ResponseParser.SortedDays | backend/ML_models/services/response_parser.py:143 | sorting the days keeps every day, orders them by day number and keeps equal numbers in their order |
| ResponseParser.ActivitiesSortedByClock | backend/ML_models/services/response_parser.py:145-146 | once every time is a clock string, the sort cannot fail, keeps every activity and orders them by time of day |
| ResponseParser.ClockTimesSortable | backend/ML_models/services/response_parser.py:146 | clock-string keys are mutually comparable |
| ResponseParser.ClocksKept | backend/ML_models/services/response_parser.py:146 | a permutation of activities with clock times has clock times |
| ResponseParser.AddNum | backend/ML_models/services/response_parser.py:177-187 | `+` succeeds exactly on two numbers and adds their values |
| ResponseParser.PySum | backend/ML_models/services/response_parser.py:177 | `sum` succeeds exactly when every item is a number |
| ResponseParser.PySumValue | backend/ML_models/services/response_parser.py:177 | the value of `sum` is the sum of the values |
| ResponseParser.AddNewUnion | backend/ML_models/services/response_parser.py:179-188 | adding to a set keeps it duplicate-free and yields exactly the union |
| ResponseParser.Costs | backend/ML_models/services/response_parser.py:177 | one cost per activity, in order |
| ResponseParser.Types | backend/ML_models/services/response_parser.py:179 | one type per activity, in order |
| ResponseParser.StatsOfDay | backend/ML_models/services/response_parser.py:177-179 | a day that can be summarised is a dict with a numeric cost |
| ResponseParser.Step | backend/ML_models/services/response_parser.py:176-188 | one round adds exactly the summarised day and keeps the earlier ones |
| ResponseParser.StepOk | backend/ML_models/services/response_parser.py:176-188 | one round adds the day's count, cost and types to the running totals |
| ResponseParser.Calculated | backend/ML_models/services/response_parser.py:176-188 | the loop yields one summarised day per day |
| ResponseParser.AddCalculatedFields | backend/ML_models/services/response_parser.py:171-197 | the summaries and statistics are those of `ResponseParser.WithCalculatedFields`, or the same error |
| ResponseParser.CalculateTotals | backend/ML_models/services/response_parser.py:176-188 | the loop over the days computes `ResponseParser.Calculated` of them |
| ResponseParser.CalculatedStep | backend/ML_models/services/response_parser.py:176-188 | the totals after `i + 1` days are one more round on those after `i` |
| ResponseParser.CalculatedFailureSticks | backend/ML_models/services/response_parser.py:176-188 | a day that fails makes the whole loop fail with its error |
| ResponseParser.CalculatedDays | backend/ML_models/services/response_parser.py:181-185 | every day leaves the loop carrying its own summary |
| ResponseParser.CalculatedCount | backend/ML_models/services/response_parser.py:178-186 | the trip's activity count is the sum of the days' counts |
| ResponseParser.CalculatedCost | backend/ML_models/services/response_parser.py:177-187 | the trip's estimated cost is a number equal to the sum of the days' costs |
| ResponseParser.CalculatedTypes | backend/ML_models/services/response_parser.py:179-188 | the trip's types are the distinct types of all days, each once |
| ResponseParser.StatsOfDayFacts | backend/ML_models/services/response_parser.py:177-179 | a day's summary counts its activities, sums their costs and lists their distinct types |
| ResponseParser.FormatItineraryData | backend/ML_models/services/response_parser.py:133-149 | budget formatting, sorting and the calculated fields give `ResponseParser.Formatted` of the itinerary |
| ResponseParser.Density | backend/ML_models/services/response_parser.py:209-212 | activity density scores between 0 and 30 |
| ResponseParser.CorePoints | backend/ML_models/services/response_parser.py:204-212 | the sections and density score between 0 and 75, and at least 15 with an overview |
| ResponseParser.CoreScore | backend/ML_models/services/response_parser.py:204-212 | same bounds, read from the itinerary |
| ResponseParser.ExtrasScore | backend/ML_models/services/response_parser.py:215-217 | the three extras score between 0 and 15 |
| ResponseParser.RawScore | backend/ML_models/services/response_parser.py:201-217 | the score fails exactly when its core part fails |
| ResponseParser.ConfidenceBounds | backend/ML_models/services/response_parser.py:199-219 | the confidence score is between 0 and 90, never reaching the maximum of 100, and at least 15 with an overview |
| ResponseParser.ConfidenceMonotone | backend/ML_models/services/response_parser.py:215-219 | adding a non-empty travel tips, packing or emergency section never lowers the score |
| ResponseParser.CoreScoreFrame | backend/ML_models/services/response_parser.py:204-212 | the extras do not affect the core score |
| ResponseParser.ExtrasScoreGrows | backend/ML_models/services/response_parser.py:215-217 | a non-empty extra never lowers the extras score |
| ResponseParser.Parsed | backend/ML_models/services/response_parser.py:23-62 | every failure of parsing is reported as a ValueError |
| ResponseParser.ParsedMetadata | backend/ML_models/services/response_parser.py:35-48 | a parsed itinerary comes from decoded JSON and carries metadata: generation time, version `1.1` and a score between 0 and 90 |
| ResponseParser.ParseItineraryResponse | backend/ML_models/services/response_parser.py:23-62 | the parser's result is `ResponseParser.Parsed`'s |
| ResponseParser.ValidatedStructure | backend/ML_models/services/response_parser.py:64-98 | the itinerary after the structure checks: the section defaults, then every dict day validated; the `Section` and `Valid` lemmas state what changes |
| ResponseParser.FormatBudget | backend/ML_models/services/response_parser.py:151-169 | the five category totals in order, then their sum as `grand_total`; `ResponseParser.FormatBudgetShape` states this |
| ResponseParser.SortedSchedule | backend/ML_models/services/response_parser.py:142-146 | the days sorted by number and each day's activities by time; `ResponseParser.SortedDays` and `ResponseParser.ActivitiesSortedByClock` state this |
| ResponseParser.WithCalculatedFields | backend/ML_models/services/response_parser.py:171-197 | the itinerary with day summaries and trip statistics; the `Calculated` lemmas state them |
| ResponseParser.Formatted | backend/ML_models/services/response_parser.py:133-149 | budget formatting, then sorting, then the calculated fields |
| ResponseParser.ConfidenceScore | backend/ML_models/services/response_parser.py:199-219 | the rounded, capped confidence score; `ResponseParser.ConfidenceBounds` and `ResponseParser.ConfidenceMonotone` state its bounds and monotonicity |
| FrontendHelpers.SafeText | frontend/components/itinerary/helpers.js:1-11 | falsy values give the empty text, strings are kept, numbers are written out, an object gives its truthy `text` or its JSON text; only an object's `text` can come back as something other than a string |
| FrontendHelpers.SafeArrayText | frontend/components/itinerary/helpers.js:13-16 | nothing for a value that is not an array, otherwise one safe text per item, in order |
| FrontendHelpers.SafeArrayTextStrings | frontend/components/itinerary/helpers.js:13-16 | an array without objects gives only strings |
| FrontendHelpers.Underscores | frontend/components/itinerary/helpers.js:22 | every underscore becomes a space and every other character stays |
| FrontendHelpers.CapitalizeWords | frontend/components/itinerary/helpers.js:23 | capitalising word starts keeps the length |
| FrontendHelpers.FormatTypeFacts | frontend/components/itinerary/helpers.js:21-23 | a formatted type keeps its length, has no underscore, starts every word with a character that is not lower case, and keeps every other character but the underscores |
| FrontendHelpers.FormatTypes | frontend/components/itinerary/helpers.js:18-26 | a value that is not an array, or an empty array, formats as the empty text |
| FrontendHelpers.FormatTypesNoUnderscore | frontend/components/itinerary/helpers.js:18-26 | the formatted list never holds an underscore |
| FrontendHelpers.FormatTypesOfStrings | frontend/components/itinerary/helpers.js:18-26 | a list of non-empty type names formats as their formatted words joined by a comma and a space |
| FrontendHelpers.FormatType | frontend/components/itinerary/helpers.js:21-23 | underscores become spaces and word starts are capitalised; `FrontendHelpers.FormatTypeFacts` states this |
| Text.LowerChar | backend/projectBackend/places/services/db_helpers.py:9 | lowering leaves no upper-case letter, shifts an upper-case one by 32 and keeps every other character |
| Text.UpperChar | frontend/components/itinerary/helpers.js:23 | upper-casing leaves no lower-case letter, shifts a lower-case one by 32 and keeps every other character |
| Text.Lower | backend/projectBackend/places/services/db_helpers.py:9 | `lower()` lowers every character and keeps the length |
| Text.LowerIdempotent | backend/projectBackend/places/services/db_helpers.py:9 | lowering twice is lowering once |
| Text.TrimLeft | backend/projectBackend/places/services/db_helpers.py:9 | leading trimming removes exactly a white-space prefix and leaves a text starting with no white space |
| Text.TrimRight | backend/projectBackend/places/services/db_helpers.py:9 | trailing trimming removes exactly a white-space suffix and leaves a text ending with no white space |
| Text.Strip | backend/projectBackend/places/services/db_helpers.py:9 | `strip()` leaves no white space at either end |
| Text.StripIdempotent | backend/projectBackend/places/services/db_helpers.py:9 | stripping twice is stripping once |
| Text.StripLower | backend/projectBackend/places/services/db_helpers.py:9 | stripping and lowering can be done in either order |
| Text.Title | backend/projectBackend/places/services/place_queries.py:45 | `title()` keeps the length |
| Text.TitleFrom | backend/projectBackend/places/services/place_queries.py:45 | title-casing keeps the length and which characters are letters |
| Text.Contains | backend/ML_models/services/prompt_builder.py:305-307 | `needle in hay` holds exactly when the needle occurs somewhere in the text |
| Text.Join | backend/projectBackend/places/services/db_helpers.py:12 | joining nothing gives the empty text and joining one part gives that part |
| Text.JoinHasPart | backend/projectBackend/places/services/db_helpers.py:12 | every part occurs in the joined text |
| Text.JoinChars | frontend/components/itinerary/helpers.js:25 | every character of a joined text comes from the separator or from a part |
| Text.NatText | backend/projectBackend/places/services/utility_helpers.py:39 | a natural number is written as a non-empty run of digits |
| JsonModel.MapOk | backend/ML_models/services/response_parser.py:156-163 | a loop that can raise succeeds exactly when every item does, and then gives one result per item, in order |
| JsonModel.MapOkFails | backend/ML_models/services/response_parser.py:156-163 | the loop raises the error of the first item that fails |
| JsonModel.MapOkAll | backend/ML_models/services/response_parser.py:156-163 | when every item succeeds the loop gives exactly their results |
| JsonModel.MapOkError | backend/ML_models/services/response_parser.py:156-163 | a loop whose items raise only one kind of error raises only that kind |
| JsonModel.LookupFinds | backend/projectBackend/places/services/utility_helpers.py:101 | a key is found exactly when some binding has it, and then the first such binding is returned |
| JsonModel.LookupAt | backend/projectBackend/places/services/utility_helpers.py:101 | the first binding of a key is the one found |
| JsonModel.PutField | backend/ML_models/services/response_parser.py:44-48 | `d[k] = v` binds `k` to `v`, changes no other key, and grows the dict only when `k` is new |
| JsonModel.Put | backend/ML_models/services/response_parser.py:44-48 | after `d[k] = v` the dict holds `v` at `k` and every other key as before |
| JsonModel.SetDefault | backend/ML_models/services/response_parser.py:190 | `setdefault` leaves a dict holding the key unchanged and adds the default to one without it, changing no other key |
| JsonModel.Values | backend/projectBackend/places/services/utility_helpers.py:34 | a dict has one value per key |
| JsonModel.Or | backend/projectBackend/places/services/itinerary_helpers.py:23-25 | `a or b` is `a` when it is truthy and `b` otherwise |
| JsonModel.GetFrom | backend/projectBackend/places/services/get_weather.py:74 | `.get` succeeds exactly on a dict |
| JsonModel.Iterate | backend/ML_models/services/response_parser.py:176 | iterating succeeds exactly on a list, a string or a dict, and a list gives its items |
| JsonModel.Texts | backend/ML_models/services/prompt_builder.py:66 | a list of strings gives its strings, in order |
| JsonModel.JoinOr | backend/ML_models/services/prompt_builder.py:66 | an empty or falsy list gives the fallback text |
| JsonModel.JoinOrListed | backend/ML_models/services/prompt_builder.py:66 | a non-empty list of strings is joined by a comma and a space |
| JsonModel.JoinOrOfTexts | backend/ML_models/services/prompt_builder.py:66 | a non-empty list of string values is joined as their strings |
| JsonModel.JoinOrNotText | backend/ML_models/services/prompt_builder.py:66 | a list holding anything but a string raises TypeError |
| Numeric.RoundHalfEven | backend/projectBackend/places/services/get_weather.py:84 | `round` lands within a half of its argument and breaks ties to the even neighbour |
| Numeric.RoundMonotone | backend/projectBackend/places/services/get_weather.py:84 | rounding never reverses the order of two numbers |
| Numeric.RoundWhole | backend/projectBackend/places/services/get_weather.py:84 | a whole number rounds to itself |
| Numeric.Round2 | backend/ML_models/services/response_parser.py:219 | rounding to two places moves the number by at most 0.005 |
| Numeric.Round2Between | backend/ML_models/services/response_parser.py:219 | rounding to two places keeps a number between the same whole bounds |
| Numeric.Round2Monotone | backend/ML_models/services/response_parser.py:219 | rounding to two places never reverses the order of two numbers |
| Sorting.StrLtIrreflexive | backend/ML_models/services/cache_manager.py:43 | no string sorts before itself |
| Sorting.StrLtTransitive | backend/ML_models/services/cache_manager.py:43 | string order is transitive |
| Sorting.StrLtTotal | backend/ML_models/services/cache_manager.py:43 | of two different strings one sorts before the other |
| Sorting.KeyLtOrder | backend/ML_models/services/cache_manager.py:43 | the order of sort keys is a strict total order |
| Sorting.InsertPermutes | backend/ML_models/services/cache_manager.py:43 | inserting adds exactly one item |
| Sorting.InsertSorted | backend/ML_models/services/cache_manager.py:43 | inserting into a sorted list keeps it sorted |
| Sorting.SortByCorrect | backend/ML_models/services/response_parser.py:143 | the stable sort gives an ordered permutation whose items with equal keys keep their order |
| Sorting.SortByLength | backend/ML_models/services/response_parser.py:143 | sorting keeps the length |
| Sorting.TiedPairSorted | backend/ML_models/services/response_parser.py:143 | two items with equal keys stay in their order |
| Sorting.SortKeepsMembers | backend/ML_models/services/response_parser.py:143 | sorting keeps exactly the items there were |
| Sorting.SortedUnique | backend/projectBackend/places/services/db_helpers.py:11 | two ordered permutations of each other are equal when the key tells the items apart |
| Sorting.Reverse | backend/projectBackend/places/services/itinerary_helpers.py:182-185 | reversing puts the item at each position at the mirrored one |
| Sorting.ReverseReverse | backend/projectBackend/places/services/itinerary_helpers.py:182-185 | reversing twice gives the list back |
| Sorting.SortDescCorrect | backend/projectBackend/places/services/itinerary_helpers.py:182-185 | the descending sort gives a permutation ordered from the largest key, whose items with equal keys keep their order |
| Sorting.SortDescPermutes | backend/projectBackend/places/services/itinerary_helpers.py:182-185 | the descending sort is a permutation |
| Sorting.SortDescOrdered | backend/projectBackend/places/services/itinerary_helpers.py:182-185 | reversing an ascending list orders it from the largest key |
| Sorting.SortDescStable | backend/projectBackend/places/services/itinerary_helpers.py:182-185 | items with equal keys keep their order in the descending sort |
| Sorting.SortDescTied | backend/projectBackend/places/services/itinerary_helpers.py:182-185 | when all items share one key the descending sort leaves the list as it is |
| Sorting.MapSeq | backend/projectBackend/places/services/db_helpers.py:11 | a list comprehension gives one result per item, in order |
| Sorting.MapPermutes | backend/projectBackend/places/services/db_helpers.py:11 | mapping two permutations of each other gives permutations of each other |
| Sorting.MapAbsorbs | backend/projectBackend/places/services/db_helpers.py:11 | mapping after a step that the map absorbs is mapping once |
| Sorting.PySorted | backend/ML_models/services/cache_manager.py:43 | `sorted` raises exactly when two keys cannot be compared, and otherwise gives the stable sort |
| Sorting.SortStringsCanonical | backend/projectBackend/places/services/db_helpers.py:11 | sorted strings form a permutation, and two permutations of the same strings sort to the same list |

## Left out

- Network clients: `get_coordinates` and `fetch_places_data` in `utility_helpers.py`, the HTTP requests of `get_weather.py`, and everything else that calls Google Maps. The model starts from the JSON these calls return.
- The generative model: the Gemini calls, and `_call_ai`, `_helper_ai_based` and `_helper_custom_based` in `itinerary_helpers_custom.py`, which are async glue around them. `ItineraryService.GenerateItinerary` receives the reply text, or `None` when the call raised.
- Prompt wording: the template text, the budget-percentage arithmetic inside the prompts, and the exact message strings of re-raised exceptions. Only the values a prompt is built from are modelled.
- Opaque builtins are parameters of the operations that use them, and nothing is assumed about them beyond what the caller passes. These are `json.dumps` with MD5, `json.loads`, `float(str)`, `str(float)`, `datetime.strptime`, `datetime.now().isoformat()`, JavaScript's `String(number)` and `JSON.stringify`.
- Persistence: `save_trip_response` and `load_trip_response` (MongoDB) are not part of this model.
- Cache files: pickling is not modelled, and neither is the truncated file that a failed `open(cache_file, 'wb')` leaves behind. The file tier is a second map from key to entry, and a file's modification time is taken to be its entry's timestamp. I/O faults are modelled as parameters: `fileFault` for `get`, `writeFault` and `failAt` for `set`, and `failAt` for `clear`.
- Cache.CacheManager.PruneFiles: the file tier is kept in a fixed order, the order keys were first stored. `glob` lists files in an order the file system chooses (cache_manager.py lines 129 and 146), so which of several equally old files a cleanup removes first, and how far `clear` gets before a failing deletion, may differ from the model.
- Cache.CacheManager.GetStats: the `hit_rate` percentage string is not modelled; only the counters and the tier sizes are.
- Clock: the current time is a real-valued parameter of `get`, `set` and cleanup, not `time.time()`.
- Logging is left out everywhere.
- Configuration: `load_preference_queries`, its file read and `get_fallback_queries` are left out. The query table is a parameter of the query generators.
- Weather: `get_forecast_weather` is modelled only as far as clamping the number of days (`Weather.RequestedDays`). The request it sends is not modelled.
- Floating point: floats are exact reals. NaN and infinities are not represented, and `float(str)` is a parameter.
- Text: case mapping, title-casing and white space cover ASCII only. Python's and JavaScript's Unicode tables are not modelled.
- ResponseParser.MatchTime: accepts only the ASCII digits 0-9. Python's `\d` in `re.match` also matches other Unicode decimal digits, such as Arabic-Indic ones, which `int` then reads.
- ResponseParser.ToFloat: never fails on a number. Python's `float` of an int too large for a double raises `OverflowError`, which the `except (ValueError, TypeError)` of `_validate_activity` does not catch.
- JSON objects with duplicate keys: the model reads the first binding, while Python and JavaScript keep the last. Decoded JSON has no duplicates, so this matters only for hand-built values.
- Ordering: Python can also order lists and tuples, which `Sorting.Orderable` does not allow. The model treats every other comparison as a `TypeError`, which is what the values reaching these sorts produce.
- ItineraryHelpers.SortByRating: two unequal list ratings raise `TypeError` in the model, while Python orders lists item by item. Equal ratings of any kind are handled as Python does, since its tuple comparison checks `==` before `<`.
- Set iteration order: Python leaves the order of `list(set(...))` open.
- UtilityHelpers.NewPlaces: states the filtering of a batch without a truthy unhashable id. `UtilityHelpers.FilterNewPlaces` raises `TypeError` before such an id, as Python does.
- UtilityHelpers.FilterNewPlaces: ids are compared as JSON values. Python's sets identify `1`, `1.0` and `True`, so two places with those ids count as one id in Python and as two in the model. The same holds for ItineraryHelpers.Flattened, ResponseParser.AddNew and ResponseParser.StatsOfDay (the activity type sets), and ItineraryHelpersCustom.Filed and ItineraryHelpersCustom.IdMap (the id sets and the id map).
- ItineraryHelpers.Flattened: identifies `1`, `1.0` and `True` as different ids, where Python's `seen_ids` treats them as one.
- ResponseParser.AddNew: keeps `1`, `1.0` and `True` apart as activity types, where Python's set holds one of them.
- ItineraryHelpersCustom.Filed: keeps `1`, `1.0` and `True` apart as ids, where Python's sets hold one of them.
- ItineraryHelpersCustom.IdMap: keeps `1`, `1.0` and `True` apart as keys, where Python's dict holds one of them.
- PlaceQueries.TakeDistinct: does not say which queries survive the cut or in what order. It states only the bound, distinctness, membership, and that every query is kept when there are few enough.
- ItineraryHelpersCustom.PlacesOf: the order of the places is any enumeration of the id set, returned as a ghost sequence, because Python's set order is not specified.
- ResponseParser.AddNew: fixes a first-seen order for `list(set(...))` of activity types. The lemmas about it state only distinctness and membership.
- ResponseParser.StatsOfDay: when a day fails in several ways at once, the model fixes one error kind. Python's choice depends on which generator expression runs first; every failure surfaces as a `ValueError` from the parser either way.
- Cache.Oldest: its own contract states only a bound. Which entries it picks is stated by `Cache.EvictOldest` and `Cache.VictimNotNewer`.
- In-place mutation: `_validate_itinerary_structure` and `_add_calculated_fields` edit the caller's dicts in place, so the caller's `itinerary` and its days are changed too. The model returns new values and does not capture that aliasing.
