# Pokémon browser state layer, modelled in Dafny

This project models the client-side state layer of a Vue application that browses the
PokéAPI catalog. It covers five parts:

- **The store** (`pokemonStore.js`): paging through the catalog, the name index for
  autocomplete, the record of the detail page, and a session cache of formatted records.
- **The search box** (`usePokemonSearch.js`): the debounced hand-over of the typed query to
  the store, the suggestion list with its keyboard highlight, and the navigations it
  triggers.
- **A generic debounced value** (`useDebouncedRef.js`).
- **The display formatters** (`formatters.js`).
- **The status handling of the catalog client** (`pokeApiService.js`).

The network is an oracle. `PokeApi.Api` gives, for each endpoint and its arguments, either a
response (HTTP status and decoded body) or a thrown error. Each asynchronous action of the
store runs to completion in one call. The `Promise.all` over the items of a list page is a
loop over the items in order; the `Promise.all` over a record's abilities in the detail flow
is a function of the abilities, in order. The debounce timers are explicit "fire" events.

Modules, one per file:

| module | file | models |
|---|---|---|
| `Wrappers` | wrappers.dfy | `Option` and `Result` (an error message stands for a thrown `Error`) |
| `JsText` | js_text.dfy | the string built-ins used: `String(n)`, `toLowerCase`, `trim`, `includes`, `Number` |
| `Formatters` | formatters.dfy | `formatters.js` |
| `PokeApi` | poke_api.dfy | `pokeApiService.js` over the oracle |
| `PokemonRecords` | pokemon_records.dfy | `formatPokemonData`, `extractIdFromUrl` |
| `Pagination` | pagination.dfy | the `totalPages` and `offset` arithmetic |
| `Autocomplete` | autocomplete.dfy | the `autocompleteSuggestions` filter |
| `StoreActions` | store_actions.dfy | what the store's actions compute: fan-outs, cache writes, cache lookup, ability enrichment, error texts |
| `Store` | pokemon_store.dfy | class `PokemonStore`: the state, getters and actions |
| `PokemonSearch` | pokemon_search.dfy | search-box transitions and class `SearchController` |
| `DebouncedRef` | debounced_ref.dfy | debounce transitions and class `DebouncedRef` |

Heights and weights are whole numbers of tenths. The catalog gives decimetres and
hectograms, so the store's `height / 10` is the number `heightTenths / 10`. `toFixed(1)` of
such a value is written out digit by digit. Case mapping is ASCII.

The store keys its cache by id. The key `None` stands for the property "null", which is where
a list item whose URL carries no id ends up.

`fetchPokemonDetail` looks in the cache first (pokemonStore.js:88-99). It takes a cached
record whose name or id matches the input, and returns it without a fetch when
`cachedPokemon.abilities` is truthy (pokemonStore.js:95). Every cached record has an
`abilities` array, and an array is truthy even when empty, so any cached match
short-circuits. This includes a record the list flow cached, whose abilities carry no
descriptions: the detail page then shows it without them.
`StoreActions.CachedRecordShortCircuits` states this.

## Model

| member | source | states |
|---|---|---|
| `JsText.NatToString` | src/utils/formatters.js:20 | `String(n)` of a natural number is a non-empty string of decimal digits, a single digit exactly when n < 10, with no leading '0' unless n is 0 |
| `JsText.ParseNatToString` | src/utils/formatters.js:20 | reading the decimal digits of `String(n)` back gives n |
| `JsText.TrimSpec` | src/composables/usePokemonSearch.js:41 | `trim()` is empty exactly when the input is all white space; the result neither starts nor ends with white space; every other character is kept; trimmed input is returned unchanged |
| `JsText.Lower` | src/services/pokeApiService.js:49 | `toLowerCase()` keeps the length of the string and maps each character on its own (ASCII upper case to lower case, all else kept) |
| `JsText.LowerIdempotent` | src/services/pokeApiService.js:49 | lower-casing twice is lower-casing once |
| `JsText.ContainsAt` | src/stores/pokemonStore.js:38 | `includes(q)` holds exactly when q occurs at some index |
| `JsText.NumberValueReads` | src/stores/pokemonStore.js:92 | `Number(input)` is the value of a string of decimal digits, and NaN (`None`) when a character other than a digit or white space occurs |
| `Formatters.SplitJoin` | src/utils/formatters.js:9-11 | `split(sep)` then `join(sep)` gives the string back, and no piece of the split holds the separator |
| `Formatters.Capitalize` | src/utils/formatters.js:6-12 | "" gives ""; otherwise same length, every '-' becomes a space, the first letter of each hyphen-separated word is upper-cased, all else kept |
| `Formatters.CapitalizeByCharacter` | src/utils/formatters.js:8-11 | split on '-', capitalise each word, join with spaces is the same as the character-by-character rewrite |
| `Formatters.CapitalizeChars` | src/utils/formatters.js:8-11 | the character-by-character rewrite keeps the length and writes each position as described |
| `Formatters.PadId` | src/utils/formatters.js:20 | `padStart(3, "0")` gives max(3, length) characters: the string whole at the end, '0' before it |
| `Formatters.PadIdSpec` | src/utils/formatters.js:20 | padded decimal digits are decimal digits and read back as the same number |
| `Formatters.FormatPokemonId` | src/utils/formatters.js:19-21 | "#" then the id padded with '0' to at least three digits; never truncated; the digits read back as the id |
| `Formatters.OneDecimal` | src/utils/formatters.js:29 | `toFixed(1)` of a whole number of tenths is the whole part as `String` writes it, '.', and the tenths digit; the two read back as that number of tenths |
| `Formatters.FormatHeight` | src/utils/formatters.js:28-30 | the whole metres as `String` writes them, '.', the tenths digit, then " m", reading back as the height in tenths |
| `Formatters.FormatWeight` | src/utils/formatters.js:37-39 | the whole kilograms as `String` writes them, '.', the tenths digit, then " kg", reading back as the weight in tenths |
| `Formatters.FormatStatName` | src/utils/formatters.js:46-56 | each of the six stat keys gets its fixed label; any other key is capitalised, keeping its length |
| `Formatters.ParseHexReadsDigits` | src/utils/formatters.js:75-77 | `parseInt(w, 16)` of a run of hexadecimal digits is their value, also behind a "0x" prefix |
| `Formatters.ParseHexOfBlank` | src/utils/formatters.js:75-77 | `parseInt(w, 16)` of white space only, or of "", is NaN |
| `Formatters.GetContrastColor` | src/utils/formatters.js:73-80 | the result is always "#1F2937" or "#FFFFFF"; an unparsable red channel gives "#FFFFFF" |
| `PokeApi.FetchWithTimeout` | src/services/pokeApiService.js:7-22 | a response is passed on whatever its status; an abort becomes "Request timed out"; any other error keeps its message |
| `PokeApi.Checked` | src/services/pokeApiService.js:36-40 | success exactly for a delivered 2xx response, with its body; any other status gives the endpoint's one message; a transport error gives its own message |
| `PokeApi.GetPokemonList` | src/services/pokeApiService.js:31-41 | any non-ok status is "Failed to fetch Pokémon list"; an ok response gives its body |
| `PokeApi.GetPokemon` | src/services/pokeApiService.js:48-60 | the lower-cased identifier is requested; 404 is "Pokémon not found"; other non-ok statuses are "Failed to fetch Pokémon" |
| `PokeApi.GetPokemonIgnoresCase` | src/services/pokeApiService.js:49-50 | an identifier and its lower-case form give the same outcome |
| `PokeApi.GetPokemonSpecies` | src/services/pokeApiService.js:67-75 | every non-ok status, 404 included, is "Failed to fetch species info" |
| `PokeApi.GetAbility` | src/services/pokeApiService.js:82-90 | every non-ok status, 404 included, is "Failed to fetch ability info" |
| `PokeApi.NumberEntries` | src/services/pokeApiService.js:104-107 | one entry per result, same order, same name, numbered by position |
| `PokeApi.GetAllPokemonNames` | src/services/pokeApiService.js:96-108 | any non-ok status is "Failed to fetch Pokémon names"; otherwise entry i has the name of result i and id i + 1 |
| `PokemonRecords.FormatPokemonData` | src/stores/pokemonStore.js:174-199 | same id and name; height and weight in tenths; type names, stats and abilities in response order; abilities carry no description; the front, back and both shiny sprites copied; the official artwork, or the default sprite when the artwork is missing or empty |
| `PokemonRecords.MatchAtSpec` | src/stores/pokemonStore.js:170 | the pattern matches at an index exactly when "/pokemon/", a non-empty run of digits and '/' start there, and the match is the value of those digits |
| `PokemonRecords.FirstMatchFromSpec` | src/stores/pokemonStore.js:170 | the search for "/pokemon/<digits>/" from an index finds nothing exactly when no index from there matches, and otherwise a match with no match before it |
| `PokemonRecords.FirstMatchFromIs` | src/stores/pokemonStore.js:170 | when nothing matches before index j and something matches at j, the search returns the match at j: `match` takes the leftmost occurrence |
| `PokemonRecords.ExtractIdFromUrl` | src/stores/pokemonStore.js:169-172 | null exactly when no index of the URL matches the pattern; otherwise the number of the leftmost match |
| `PokemonRecords.DigitRunOf` | src/stores/pokemonStore.js:170 | the greedy `\d+` reads exactly the digits that precede a non-digit |
| `PokemonRecords.MatchAtResource` | src/stores/pokemonStore.js:170 | the pattern matches a resource URL where its "/pokemon/" segment starts, with the URL's id |
| `PokemonRecords.ExtractResourceId` | src/stores/pokemonStore.js:169-172 | a URL `base/pokemon/<id>/…` gives back id, provided "/pokemon/" does not start inside base |
| `PokemonRecords.ExtractCatalogId` | src/stores/pokemonStore.js:169-172 | every list-item URL of the catalog's own base URL gives back its id |
| `Pagination.TotalPages` | src/stores/pokemonStore.js:29 | the fewest pages of `itemsPerPage` that hold `totalCount` items; 0 exactly when there are none |
| `Pagination.Offset` | src/stores/pokemonStore.js:31 | page 1 starts at 0, and no page from 1 on starts before 0 |
| `Pagination.PagesAreContiguous` | src/stores/pokemonStore.js:53 | each page starts exactly `itemsPerPage` after the previous one |
| `Pagination.PagesCoverCatalog` | src/stores/pokemonStore.js:29-31 | every item lies on page i / itemsPerPage + 1, which is between 1 and `totalPages`, and on no other page; every such page starts on an existing item; later pages start at or past the end |
| `Autocomplete.Suggestions` | src/stores/pokemonStore.js:33-41 | empty for a query under two characters; otherwise at most eight entries, a subsequence of the index, each matching the lower-cased query (name contains it, or decimal id starts with it); min(8, number of matches) of them, so every match preceded by fewer than eight matches is included |
| `Autocomplete.FilterFacts` | src/stores/pokemonStore.js:36-39 | the filter keeps exactly the matches, in index order |
| `Autocomplete.FilterAppend` | src/stores/pokemonStore.js:36-39 | filtering distributes over concatenation |
| `Autocomplete.PrefixIsSubsequence` | src/stores/pokemonStore.js:40 | `slice(0, 8)` of a subsequence is a subsequence |
| `Autocomplete.FilterKeepsEarlyMatches` | src/stores/pokemonStore.js:36-40 | a match preceded by fewer than eight matches survives the slice |
| `StoreActions.ErrorText` | src/stores/pokemonStore.js:77 | `error.message` or, when empty, the fallback; never empty |
| `StoreActions.ItemRequest` | src/stores/pokemonStore.js:68 | the identifier requested for a list item is "null" for a missing id, otherwise digits that read back as the id |
| `StoreActions.ResolveKey` | src/stores/pokemonStore.js:62-72 | a key cached when the fan-out began gives that record unfetched; otherwise the formatted response, or the request's error |
| `StoreActions.AllSettled` | src/stores/pokemonStore.js:61-73 | `Promise.all` succeeds exactly when every callback did, with their values in order; otherwise it fails with the error of a failing callback that no earlier one precedes |
| `StoreActions.CacheWrites` | src/stores/pokemonStore.js:65-70 | the cache writes of a fan-out keep every entry the cache held |
| `StoreActions.CacheWritesStep` | src/stores/pokemonStore.js:70 | one more callback adds its value under its key when it fetched one, and nothing otherwise |
| `StoreActions.CacheWritesOnlySuccesses` | src/stores/pokemonStore.js:70 | every new entry is the value of a successful callback with that key |
| `StoreActions.CacheWritesCover` | src/stores/pokemonStore.js:65-70 | when equal keys resolve alike, every fetched value ends up under its key, whatever the order of the writes |
| `StoreActions.AllSettledStep` | src/stores/pokemonStore.js:61 | one more settled callback extends the values, or fails, as `Promise.all` does |
| `StoreActions.PageIsCached` | src/stores/pokemonStore.js:61-75 | after the fan-out, old entries are kept and each new entry is a record fetched for an item with that key; when the page resolved, each record is cached under its item's key |
| `StoreActions.PageLoaded` | src/stores/pokemonStore.js:58-75 | once the list body arrived: the count is taken and the cache keeps every record it held. When every item resolved, the page is the resolved records, each cached under its item's key, with no error. Otherwise the old list stays and the item error, never empty, is shown |
| `StoreActions.ListFetched` | src/stores/pokemonStore.js:47-81 | A failed list request only sets its error text. Otherwise the count is taken and the cache keeps every record it held. When every item resolved, the page is the resolved records in item order, each cached under its item's key, with the error cleared. Otherwise the old list stays and the item error is shown. An error text is never empty |
| `StoreActions.FindCached` | src/stores/pokemonStore.js:89-93 | a cached record that matches the input (name ignoring case, or id equal to `Number(input)`), or none exactly when no cached record matches |
| `StoreActions.MatchesOwnId` | src/stores/pokemonStore.js:92 | a record matches the decimal form of its own id |
| `StoreActions.CachedRecordShortCircuits` | src/stores/pokemonStore.js:89-99 | every cached record, also one without ability descriptions, is found by its id and so short-circuits the detail flow |
| `StoreActions.MatchesOwnName` | src/stores/pokemonStore.js:91 | a record matches its name in any case |
| `StoreActions.EnglishShortEffect` | src/stores/pokemonStore.js:111-117 | the short effect of the first English entry, or "No description available." when there is no English entry or its text is empty; never empty |
| `StoreActions.Describe` | src/stores/pokemonStore.js:106-125 | an ability keeps its name and flag and gets the English short effect, or the placeholder when the lookup fails |
| `StoreActions.AbilityDescriptions` | src/stores/pokemonStore.js:105-127 | enrichment never fails, keeps the abilities' order, names and flags, and gives each the non-empty description `Describe` gives it |
| `StoreActions.DetailRecord` | src/stores/pokemonStore.js:102-129 | the record is `formatPokemonData` of the response with the described abilities, one per raw ability in order, in place of the bare ones |
| `StoreActions.DetailError` | src/stores/pokemonStore.js:132-137 | "Pokémon not found" becomes `Pokémon "<input>" not found`; any other message is kept; an empty one becomes "Failed to fetch Pokémon details" |
| `Store.PokemonStore.constructor` | src/stores/pokemonStore.js:5-26 | the initial state: page 1 of 20, nothing loaded, nothing cached, no error |
| `Store.PokemonStore.TotalPages` | src/stores/pokemonStore.js:29 | `totalPages` is the fewest pages holding `totalCount`, 0 exactly for an empty catalog |
| `Store.PokemonStore.Offset` | src/stores/pokemonStore.js:31 | `offset` is (currentPage - 1) · itemsPerPage |
| `Store.PokemonStore.AutocompleteSuggestions` | src/stores/pokemonStore.js:33-41 | at most eight index entries, in index order, each matching the lower-cased query; none for a query under two characters; otherwise min(8, number of matches) of them, every match preceded by fewer than eight matches included |
| `Store.PokemonStore.IsPokemonCached` | src/stores/pokemonStore.js:43 | true exactly when the cache holds a record under the id |
| `Store.PokemonStore.FetchPokemonList` | src/stores/pokemonStore.js:47-81 | `currentPage` becomes the page and `isLoading` ends false. The list, count, error and cache become `ListFetched` of their old values. No other field changes |
| `Store.PokemonStore.LoadPage` | src/stores/pokemonStore.js:58-78 | once the list response arrived, the count, list, error and cache are those `PageLoaded` gives for it |
| `Store.PokemonStore.ResolveItems` | src/stores/pokemonStore.js:61-73 | the fan-out returns `ResolvePage` of the cache it started from and leaves the cache as `PageWrites` says |
| `Store.PokemonStore.ResolveCallback` | src/stores/pokemonStore.js:62-72 | one callback: a cached record unchanged, or a fetched record also written to the cache; a failed fetch writes nothing |
| `Store.PokemonStore.FetchPokemonDetail` | src/stores/pokemonStore.js:83-141 | a cached match is shown without a fetch, and the cache is unchanged. Otherwise a failed load sets the error text and leaves the record and the cache alone. A successful load shows the enriched record and caches it under its id, with no error. `isLoadingDetail` ends false |
| `Store.PokemonStore.FetchAllPokemonNames` | src/stores/pokemonStore.js:143-151 | a loaded index is kept; an empty one is loaded once; a failure leaves it empty |
| `Store.PokemonStore.SetSearchQuery` | src/stores/pokemonStore.js:153-155 | sets only the query |
| `Store.PokemonStore.SetPage` | src/stores/pokemonStore.js:157-159 | sets only the current page |
| `Store.PokemonStore.ClearError` | src/stores/pokemonStore.js:161-163 | clears only the error |
| `Store.PokemonStore.ClearCurrentPokemon` | src/stores/pokemonStore.js:165-167 | clears only the current record |
| `PokemonSearch.QueryWritten` | src/composables/usePokemonSearch.js:22-24 | writing a new value reschedules the one timer for it; writing the same value changes nothing |
| `PokemonSearch.TimerFired` | src/composables/usePokemonSearch.js:24-32 | the store gets the value; the list is shown exactly when it has two characters or more; the highlight is reset only then |
| `PokemonSearch.SearchSubmitted` | src/composables/usePokemonSearch.js:40-48 | a blank query changes nothing; otherwise the list is hidden, "/pokemon/" + the trimmed lower-cased query is pushed, both queries are cleared, and the highlight is kept |
| `PokemonSearch.SuggestionSelected` | src/composables/usePokemonSearch.js:54-59 | the list is hidden, both queries are cleared, "/pokemon/" + the name is pushed, and the highlight is kept |
| `PokemonSearch.SelectMissing` | src/composables/usePokemonSearch.js:54-58 | selecting past the end of the list hides it and clears both queries but navigates nowhere |
| `PokemonSearch.KeyPressed` | src/composables/usePokemonSearch.js:65-98 | hidden or empty list: only Enter acts, as a search. ArrowDown moves to min(h+1, n-1) and ArrowUp to max(h-1, -1). Enter selects the highlighted suggestion, or searches when there is none. Escape hides the list and drops the highlight. Other keys do nothing |
| `PokemonSearch.AutocompleteClosed` | src/composables/usePokemonSearch.js:103-106 | hides the list and drops the highlight; nothing else changes |
| `PokemonSearch.EventsKeepInvariants` | src/composables/usePokemonSearch.js:22-106 | every event keeps a pending timer on the current query and, while the list is shown, the highlight in [-1, n-1] |
| `PokemonSearch.EventsKeepStoreSynced` | src/composables/usePokemonSearch.js:22-59 | every event keeps the store's query equal to the box's whenever no timer is pending |
| `PokemonSearch.EnterSelectsHighlighted` | src/composables/usePokemonSearch.js:85-88 | under the invariant, Enter on a highlight always selects an existing suggestion |
| `PokemonSearch.ArrowDownClamps` | src/composables/usePokemonSearch.js:74-80 | from no highlight, k ArrowDowns highlight min(k-1, n-1): it stops at the last suggestion and never wraps |
| `PokemonSearch.ArrowUpClamps` | src/composables/usePokemonSearch.js:81-84 | k ArrowUps move the highlight to max(h-k, -1) |
| `PokemonSearch.BurstSchedulesLast` | src/composables/usePokemonSearch.js:22-24 | after a burst of typing the box holds the last value; once any value typed differed from the start, one timer carries the last value; when none did, nothing changed; the store stays caught up when idle |
| `PokemonSearch.BurstThenFire` | src/composables/usePokemonSearch.js:22-33 | when the timer fires after a burst the store holds the last value typed, whether the burst changed the query or came back to it; when it changed it, the list is shown exactly when that value has two characters or more |
| `PokemonSearch.SearchController.constructor` | src/composables/usePokemonSearch.js:14-19 | empty query, hidden list, highlight -1, no timer |
| `PokemonSearch.SearchController.SetQuery` | src/composables/usePokemonSearch.js:22-24 | the state after the assignment is `QueryWritten` of the state before |
| `PokemonSearch.SearchController.FireTimer` | src/composables/usePokemonSearch.js:24-32 | the state after the timer is `TimerFired` of the state before, the store's query included |
| `PokemonSearch.SearchController.HandleSearch` | src/composables/usePokemonSearch.js:40-48 | the new state is `SearchSubmitted` of the old |
| `PokemonSearch.SearchController.HandleSelect` | src/composables/usePokemonSearch.js:54-59 | the new state is `SuggestionSelected` of the old, with the chosen entry's name |
| `PokemonSearch.SearchController.HandleKeydown` | src/composables/usePokemonSearch.js:65-98 | the new state is `KeyPressed` of the old, against the store's current suggestions |
| `PokemonSearch.SearchController.CloseAutocomplete` | src/composables/usePokemonSearch.js:103-106 | the new state is `AutocompleteClosed` of the old |
| `DebouncedRef.Init` | src/composables/useDebouncedRef.js:10-12 | both values start at the initial value and no timer is scheduled |
| `DebouncedRef.Write` | src/composables/useDebouncedRef.js:14-23 | a changed value reschedules the one timer for it; the debounced value is untouched; an unchanged value does nothing |
| `DebouncedRef.Fire` | src/composables/useDebouncedRef.js:20-22 | the debounced value becomes the scheduled value; `value` is never written |
| `DebouncedRef.BurstKeepsDebounced` | src/composables/useDebouncedRef.js:14-23 | a burst of writes leaves the debounced value alone and the last value in `value`; once any write changed the value the one timer carries the last value; when none did, nothing changed |
| `DebouncedRef.BurstThenFire` | src/composables/useDebouncedRef.js:20-21 | after a burst and a fire, the debounced value is the last value written, also when the burst came back to the value it started from |
| `DebouncedRef.EventsKeepTimer` | src/composables/useDebouncedRef.js:10-23 | the ref starts settled; every event keeps the pending timer on the current value, and the debounced value equal to the value whenever no timer is pending |
| `DebouncedRef.DebouncedRef.constructor` | src/composables/useDebouncedRef.js:10-12 | the refs start at the initial value; the watcher not being immediate, no timer is pending |
| `DebouncedRef.DebouncedRef.SetValue` | src/composables/useDebouncedRef.js:14-23 | the new state is `Write` of the old |
| `DebouncedRef.DebouncedRef.FireTimer` | src/composables/useDebouncedRef.js:20-22 | the new state is `Fire` of the old |

## Left out

- Real HTTP: `fetch`, the `AbortController` and its 10-second timer, and `response.json()`. The oracle's `Thrown("AbortError", …)` outcome stands for the timer's abort. Malformed bodies are not modelled: decoding errors, and `TypeError`s from missing fields in `formatPokemonData`.
- Concurrency: each action runs to completion in one call. Overlapping actions and the interleaving of callbacks inside `Promise.all` are not modelled. Cache writes by sibling callbacks that land after `Promise.all` has rejected are applied before the action returns.
- `StoreActions.AllSettled`: the error reported is the first failing callback in item order. `Promise.all` reports the first to settle, which depends on timing.
- `StoreActions.FindCached`: when several cached records match, the model returns any one of them. `Object.values` order (integer-like keys ascending, then insertion order) is not modelled.
- `JsText.NumberValue`: only blank and all-digit strings give a number. `Number`'s signs, decimals, exponents, hexadecimal, binary and octal prefixes, and "Infinity" give NaN (`None`) here.
- `JsText.Lower`: only ASCII letters are mapped, and so in `Formatters.Capitalize` `toUpperCase` maps only ASCII letters too. Non-ASCII case mapping, which can change a string's length, is not modelled.
- `Formatters.GetContrastColor`: the luminance test is the exact integer comparison 299r + 587g + 114b > 127500. Floating-point rounding near the threshold is not modelled. Of the NaN cases, only the red channel's is stated as a property.
- `Formatters.FormatStatName`: keys inherited from `Object.prototype` (such as "constructor") are treated as unknown keys.
- `Formatters.FormatHeight`, `Formatters.FormatWeight`: the argument is a whole number of tenths, as the store produces. `toFixed(1)` rounding of other values is not modelled.
- `Store.PokemonStore.FetchPokemonList`: the default argument `page = 1` (pokemonStore.js:47) is not modelled; a call without a page is the call with page 1.
- `PokemonSearch.KeyPressed`: `event.preventDefault()` (usePokemonSearch.js:75, 82, 86) only stops the browser's own handling of the key (caret movement, form submission), which is outside the model.
- `PokemonSearch.TimerFired`, `Autocomplete.Suggestions`: a string's length is its number of Unicode characters. JavaScript's `.length` (usePokemonSearch.js:26, pokemonStore.js:34) counts UTF-16 code units, so a single character outside the Basic Multilingual Plane counts 2 there and 1 here.
- `DebouncedRef.Write`, `PokemonSearch.QueryWritten`: the watcher's change test is Dafny equality, which on a datatype or a sequence compares contents; Vue's `Object.is` compares the identity of objects and arrays. A new but equal object written to the ref starts a timer in the source and does nothing here. Strings, the only values usePokemonSearch.js writes, compare the same way in both; a JavaScript object modelled as a class reference would compare by identity in both.
- `JsText.NatToString`, `JsText.ParseDigits`, `JsText.NumberValue`: numbers are unbounded naturals. JavaScript's `String(n)` and `Number(s)` work on doubles: `Number` rounds above 2^53 and `String` switches to exponent notation from 1e21. Catalog ids and counts stay far below both.
- `calculateStatPercentage` (formatters.js:64-66) is floating-point arithmetic only and is not modelled.
- `PokeApi.GetPokemonSpecies`: the species body is passed on unread.
- `Store.PokemonStore.IsPokemonCached`: it takes a natural-number id. JavaScript property lookup with other keys is not modelled.
- Vue reactivity: the model runs a `watch` callback at once, inside the assignment that changed its source, where Vue queues it and runs it before the next render. The end state is the same: each handler writes the query at most once, and the queued callback runs before any timer callback can.
- Debounce timing: the 300 ms delays (`SEARCH_DEBOUNCE_MS`, the `delay` parameter) are not modelled. The timer is an explicit fire event.
- `console.error` logging in `fetchAllPokemonNames`.
- src/composables/usePokemonList.js and src/composables/usePokemonDetail.js only forward to the store. Their retry helpers are not part of this model.
- src/router/index.js, src/main.js and tailwind.config.js are not part of this model: routing table, bootstrapping and styling.
- src/utils/constants.js is not part of this model. Its page size (20) and suggestion cap (8) are the values the store hard-codes.
