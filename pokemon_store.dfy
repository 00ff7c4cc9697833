/** The application store: its state, its getters and its actions. Each asynchronous action
    runs here to completion in one call, against the catalog `api`; what it computes is given
    by the functions of `StoreActions`. */
module Store {
  import opened Wrappers
  import opened JsText
  import opened PokeApi
  import opened PokemonRecords
  import opened StoreActions
  import Pagination
  import Autocomplete

  class PokemonStore {
    var pokemonList: seq<Pokemon>
    var totalCount: nat
    var currentPage: int
    const itemsPerPage: nat
    var searchQuery: string
    var allPokemonNames: seq<NameEntry>
    var currentPokemon: Option<Pokemon>
    var isLoading: bool
    var isLoadingDetail: bool
    var error: Option<string>
    var pokemonCache: Cache

    /** The initial state: an empty first page, no index, no record, nothing cached. */
    constructor()
      ensures pokemonList == [] && totalCount == 0 && currentPage == 1
      ensures itemsPerPage == Pagination.ItemsPerPage
      ensures searchQuery == [] && allPokemonNames == [] && currentPokemon == None
      ensures !isLoading && !isLoadingDetail && error == None && pokemonCache == map[]
    {
      pokemonList := [];
      totalCount := 0;
      currentPage := 1;
      itemsPerPage := Pagination.ItemsPerPage;
      searchQuery := [];
      allPokemonNames := [];
      currentPokemon := None;
      isLoading := false;
      isLoadingDetail := false;
      error := None;
      pokemonCache := map[];
    }

    /** `totalPages`: the fewest pages that hold the catalog. */
    function TotalPages(): (pages: nat)
      requires itemsPerPage > 0
      reads this
      ensures pages * itemsPerPage >= totalCount
      ensures pages > 0 ==> (pages - 1) * itemsPerPage < totalCount
      ensures pages == 0 <==> totalCount == 0
    {
      Pagination.TotalPages(totalCount, itemsPerPage)
    }

    /** `offset`: the catalog index the current page starts at. */
    function Offset(): (offset: int)
      reads this
      ensures offset == Pagination.Offset(currentPage, itemsPerPage)
      ensures currentPage >= 1 ==> offset >= 0
    {
      (currentPage - 1) * itemsPerPage
    }

    /** `autocompleteSuggestions`: at most eight entries of the name index, in index order,
        each of which matches the lower-cased query. */
    function AutocompleteSuggestions(): (r: seq<NameEntry>)
      reads this
      ensures |searchQuery| < 2 ==> r == []
      ensures |r| <= Autocomplete.MaxSuggestions
      ensures Autocomplete.IsSubsequence(r, allPokemonNames)
      ensures forall e :: e in r ==> Autocomplete.Matches(e, Lower(searchQuery))
      ensures |searchQuery| >= 2 ==>
                |r| == (if Autocomplete.CountMatches(allPokemonNames, Lower(searchQuery)) < Autocomplete.MaxSuggestions
                        then Autocomplete.CountMatches(allPokemonNames, Lower(searchQuery)) else Autocomplete.MaxSuggestions)
      ensures |searchQuery| >= 2 ==>
                forall i :: (&& 0 <= i < |allPokemonNames| && Autocomplete.Matches(allPokemonNames[i], Lower(searchQuery))
                             && Autocomplete.CountMatches(allPokemonNames[..i], Lower(searchQuery)) < Autocomplete.MaxSuggestions)
                            ==> allPokemonNames[i] in r
    {
      Autocomplete.Suggestions(searchQuery, allPokemonNames)
    }

    /** `isPokemonCached(id)`: the cache holds a record under `id`. */
    function IsPokemonCached(id: nat): (cached: bool)
      reads this
      ensures cached <==> Some(id) in pokemonCache
    {
      Some(id) in pokemonCache
    }

    /** The fields `fetchPokemonList` writes, other than `currentPage` and `isLoading`. */
    function ListFields(): ListState
      reads this
    {
      ListState(pokemonList, totalCount, error, pokemonCache)
    }

    /** `fetchPokemonList(page)`: sets the page, then updates the list, the count, the error and
        the cache as `ListFetched` says; the loading flag ends false and nothing else changes. */
    method FetchPokemonList(page: int, api: Api)
      modifies this`pokemonList, this`totalCount, this`error, this`pokemonCache, this`currentPage, this`isLoading
      ensures currentPage == page && !isLoading
      ensures ListFields() == ListFetched(old(ListFields()), page, itemsPerPage, api)
      ensures searchQuery == old(searchQuery) && allPokemonNames == old(allPokemonNames)
      ensures currentPokemon == old(currentPokemon) && isLoadingDetail == old(isLoadingDetail)
    {
      isLoading := true;
      error := None;
      currentPage := page;
      var list := GetPokemonList(api, itemsPerPage, Pagination.Offset(page, itemsPerPage));
      if list.Failure? {
        error := Some(ErrorText(list.error, DefaultListError));
      } else {
        LoadPage(list.value, api);
      }
      isLoading := false;
    }

    /** The rest of `fetchPokemonList` once the list response `body` arrived: takes the count,
        resolves the items, and publishes the page or the item error. */
    method LoadPage(body: ListBody, api: Api)
      modifies this`pokemonList, this`totalCount, this`error, this`pokemonCache
      ensures ListFields() == PageLoaded(old(pokemonList), old(pokemonCache), body, api)
    {
      totalCount := body.count;
      var resolved := ResolveItems(body.results, api);
      if resolved.Success? {
        pokemonList := resolved.value;
        error := None;
      } else {
        error := Some(ErrorText(resolved.error, DefaultListError));
      }
    }

    /** `Promise.all(data.results.map(...))` of `fetchPokemonList`: each callback takes its
        item's record from the cache as it was when the fan-out began, or fetches, formats and
        caches it; the result is every record in item order, or the first failure. */
    method ResolveItems(items: seq<NamedRef>, api: Api) returns (resolved: Result<seq<Pokemon>>)
      modifies this`pokemonCache
      ensures resolved == ResolvePage(old(pokemonCache), items, api)
      ensures pokemonCache == PageWrites(old(pokemonCache), items, api)
    {
      var cache0 := pokemonCache;
      ghost var keys := ItemKeys(items);
      ghost var outcomes := ResolveAll(cache0, items, api);
      var records: seq<Pokemon> := [];
      var failure: Option<string> := None;
      var i := 0;
      while i < |items|
        invariant 0 <= i <= |items|
        invariant pokemonCache == CacheWrites(cache0, keys[..i], outcomes[..i])
        invariant failure.None? ==> AllSettled(outcomes[..i]) == Success(records)
        invariant failure.Some? ==> AllSettled(outcomes[..i]) == Failure(failure.value)
      {
        var outcome := ResolveCallback(cache0, items[i], api);
        assert outcome == outcomes[i];
        CacheWritesStep(cache0, keys, outcomes, i);
        AllSettledStep(outcomes, i);
        if failure.None? {
          if outcome.Success? {
            records := records + [outcome.value];
          } else {
            failure := Some(outcome.error);
          }
        }
        i := i + 1;
      }
      assert outcomes[..i] == outcomes && keys[..i] == keys;
      resolved := if failure.None? then Success(records) else Failure(failure.value);
    }

    /** One callback of the fan-out: the item's record from the cache as it was when the
        fan-out began, or else the fetched and formatted record, which is also written to the
        cache; a failed fetch writes nothing. */
    method ResolveCallback(cache0: Cache, item: NamedRef, api: Api) returns (outcome: Result<Pokemon>)
      modifies this`pokemonCache
      ensures outcome == ResolveItem(cache0, item, api)
      ensures ItemKey(item) !in cache0 && outcome.Success? ==>
                pokemonCache == old(pokemonCache)[ItemKey(item) := outcome.value]
      ensures ItemKey(item) in cache0 || outcome.Failure? ==> pokemonCache == old(pokemonCache)
    {
      var key := ItemKey(item);
      if key in cache0 {
        return Success(cache0[key]);
      }
      var details := GetPokemon(api, ItemRequest(key));
      if details.Success? {
        var formatted := FormatPokemonData(details.value);
        pokemonCache := pokemonCache[key := formatted];
        outcome := Success(formatted);
      } else {
        outcome := Failure(details.error);
      }
    }

    /** `fetchPokemonDetail(nameOrId)`: shows a cached record that matches the input when there
        is one; otherwise loads the record, describes its abilities, shows it and caches it
        under its id; a failed load sets the error and leaves record and cache alone. */
    method FetchPokemonDetail(nameOrId: string, api: Api)
      modifies this`isLoadingDetail, this`error, this`currentPokemon, this`pokemonCache
      ensures !isLoadingDetail
      ensures HasMatch(old(pokemonCache), nameOrId) ==>
                && currentPokemon.Some?
                && MatchesInput(currentPokemon.value, nameOrId)
                && (exists k :: k in old(pokemonCache) && old(pokemonCache)[k] == currentPokemon.value)
                && pokemonCache == old(pokemonCache)
                && error == None
      ensures !HasMatch(old(pokemonCache), nameOrId) && GetPokemon(api, nameOrId).Failure? ==>
                && error == Some(DetailError(nameOrId, GetPokemon(api, nameOrId).error))
                && currentPokemon == old(currentPokemon)
                && pokemonCache == old(pokemonCache)
      ensures !HasMatch(old(pokemonCache), nameOrId) && GetPokemon(api, nameOrId).Success? ==>
                var record := DetailRecord(GetPokemon(api, nameOrId).value, api);
                && currentPokemon == Some(record)
                && pokemonCache == old(pokemonCache)[Some(record.id) := record]
                && error == None
    {
      isLoadingDetail := true;
      error := None;
      var cached := FindCached(pokemonCache, nameOrId);
      if cached.Some? {
        currentPokemon := cached;
        isLoadingDetail := false;
        return;
      }
      var data := GetPokemon(api, nameOrId);
      if data.Failure? {
        error := Some(DetailError(nameOrId, data.error));
        isLoadingDetail := false;
        return;
      }
      var formatted := DetailRecord(data.value, api);
      currentPokemon := Some(formatted);
      pokemonCache := pokemonCache[Some(formatted.id) := formatted];
      isLoadingDetail := false;
    }

    /** `fetchAllPokemonNames()`: loads the name index once; a failure leaves it empty. */
    method FetchAllPokemonNames(api: Api)
      modifies this`allPokemonNames
      ensures old(allPokemonNames) != [] ==> allPokemonNames == old(allPokemonNames)
      ensures old(allPokemonNames) == [] && GetAllPokemonNames(api).Success? ==>
                allPokemonNames == GetAllPokemonNames(api).value
      ensures old(allPokemonNames) == [] && GetAllPokemonNames(api).Failure? ==> allPokemonNames == []
    {
      if |allPokemonNames| > 0 {
        return;
      }
      var names := GetAllPokemonNames(api);
      if names.Success? {
        allPokemonNames := names.value;
      }
    }

    method SetSearchQuery(query: string)
      modifies this`searchQuery
      ensures searchQuery == query
    {
      searchQuery := query;
    }

    method SetPage(page: int)
      modifies this`currentPage
      ensures currentPage == page
    {
      currentPage := page;
    }

    method ClearError()
      modifies this`error
      ensures error == None
    {
      error := None;
    }

    method ClearCurrentPokemon()
      modifies this`currentPokemon
      ensures currentPokemon == None
    {
      currentPokemon := None;
    }
  }
}
