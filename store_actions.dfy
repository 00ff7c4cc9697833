/** What the store's asynchronous actions compute, as functions of the state they start
    from and of the catalog (`Api`): the page of records `fetchPokemonList` resolves and the
    cache entries it writes, the cache lookup and the enriched record of
    `fetchPokemonDetail`, and the error texts both show. The `PokemonStore` class applies
    these to its fields. */
module StoreActions {
  import opened Wrappers
  import opened JsText
  import opened PokeApi
  import opened PokemonRecords
  import Pagination

  const DefaultListError := "Failed to fetch Pokémon list"
  const DefaultDetailError := "Failed to fetch Pokémon details"
  const NoDescription := "No description available."

  /** `error.message || fallback`: the error's own message, or the fallback when that is empty,
      so the text the store shows is never empty. */
  function ErrorText(message: string, fallback: string): (r: string)
    requires fallback != []
    ensures r != []
    ensures r == message || r == fallback
    ensures message != [] ==> r == message
  {
    if message != [] then message else fallback
  }

  /** `pokemonCache`: formatted records keyed by id. The key `None` is the property "null",
      under which a list item whose URL carries no id is stored. */
  type Cache = map<Option<nat>, Pokemon>

  /** The cache key of a list item: the id in its URL. */
  function ItemKey(item: NamedRef): Option<nat> {
    ExtractIdFromUrl(item.url)
  }

  /** The identifier `getPokemon` is called with for a key: `String(id)`, which is "null" for
      a missing id. */
  function ItemRequest(key: Option<nat>): (r: string)
    ensures key.None? ==> r == "null"
    ensures key.Some? ==> AllDigits(r) && r != [] && ParseDigits(r) == key.value
  {
    match key
    case None => "null"
    case Some(id) => ParseNatToString(id); NatToString(id)
  }

  /** One callback of the list fan-out, for the item with key `key`: the cached record when the
      cache held one as the fan-out began, otherwise the formatted response to the item's
      request, or that request's error. */
  function ResolveKey(cache0: Cache, key: Option<nat>, api: Api): (r: Result<Pokemon>)
    ensures key in cache0 ==> r == Success(cache0[key])
    ensures key !in cache0 && GetPokemon(api, ItemRequest(key)).Failure? ==>
              r == Failure(GetPokemon(api, ItemRequest(key)).error)
    ensures key !in cache0 && GetPokemon(api, ItemRequest(key)).Success? ==>
              r == Success(FormatPokemonData(GetPokemon(api, ItemRequest(key)).value))
  {
    if key in cache0 then Success(cache0[key])
    else
      match GetPokemon(api, ItemRequest(key))
      case Failure(e) => Failure(e)
      case Success(raw) => Success(FormatPokemonData(raw))
  }

  function ResolveItem(cache0: Cache, item: NamedRef, api: Api): Result<Pokemon> {
    ResolveKey(cache0, ItemKey(item), api)
  }

  /** `Promise.all` over settled callbacks: every value in order when all succeed; otherwise
      the error of a failing callback, taken here to be the first one in order. */
  function AllSettled<T>(results: seq<Result<T>>): (r: Result<seq<T>>)
    ensures r.Success? <==> forall i :: 0 <= i < |results| ==> results[i].Success?
    ensures r.Success? ==>
              && |r.value| == |results|
              && forall i :: 0 <= i < |results| ==> results[i] == Success(r.value[i])
    ensures r.Failure? ==>
              exists i :: && 0 <= i < |results|
                          && results[i] == Failure(r.error)
                          && forall j :: 0 <= j < i ==> results[j].Success?
    decreases |results|
  {
    if results == [] then Success([])
    else
      var n := |results| - 1;
      var init := AllSettled(results[..n]);
      assert forall i :: 0 <= i < n ==> results[..n][i] == results[i];
      if init.Failure? then init
      else if results[n].Failure? then Failure(results[n].error)
      else Success(init.value + [results[n].value])
  }

  /** One more settled callback. */
  lemma AllSettledStep<T>(results: seq<Result<T>>, i: nat)
    requires i < |results|
    ensures var init := AllSettled(results[..i]);
            AllSettled(results[..i + 1])
              == if init.Failure? then init
                 else if results[i].Failure? then Failure(results[i].error)
                 else Success(init.value + [results[i].value])
  {
    assert results[..i + 1][..i] == results[..i];
  }

  /** The callbacks' outcomes for the items of a page, in item order. */
  function ResolveAll(cache0: Cache, items: seq<NamedRef>, api: Api): (rs: seq<Result<Pokemon>>)
    ensures |rs| == |items|
    ensures forall i :: 0 <= i < |items| ==> rs[i] == ResolveItem(cache0, items[i], api)
  {
    seq(|items|, i requires 0 <= i < |items| => ResolveItem(cache0, items[i], api))
  }

  /** The page `fetchPokemonList` resolves: all records of the page, or the first error. */
  function ResolvePage(cache0: Cache, items: seq<NamedRef>, api: Api): Result<seq<Pokemon>> {
    AllSettled(ResolveAll(cache0, items, api))
  }

  /** The keys of the items of a page, in item order. */
  function ItemKeys(items: seq<NamedRef>): (keys: seq<Option<nat>>)
    ensures |keys| == |items|
    ensures forall i :: 0 <= i < |items| ==> keys[i] == ItemKey(items[i])
  {
    seq(|items|, i requires 0 <= i < |items| => ItemKey(items[i]))
  }

  /** The writes of a fan-out, in callback order: a callback whose key was not cached when the
      fan-out began and that succeeded stores its value under its key; the others write
      nothing. Everything the cache held is kept. */
  function CacheWrites<K, V>(cache0: map<K, V>, keys: seq<K>, results: seq<Result<V>>): (r: map<K, V>)
    requires |keys| == |results|
    ensures forall k :: k in cache0 ==> k in r && r[k] == cache0[k]
    decreases |keys|
  {
    if keys == [] then cache0
    else
      var n := |keys| - 1;
      var c := CacheWrites(cache0, keys[..n], results[..n]);
      if keys[n] !in cache0 && results[n].Success? then c[keys[n] := results[n].value] else c
  }

  /** One more callback's writes. */
  lemma CacheWritesStep<K, V>(cache0: map<K, V>, keys: seq<K>, results: seq<Result<V>>, i: nat)
    requires i < |keys| == |results|
    ensures var c := CacheWrites(cache0, keys[..i], results[..i]);
            CacheWrites(cache0, keys[..i + 1], results[..i + 1])
              == if keys[i] !in cache0 && results[i].Success? then c[keys[i] := results[i].value] else c
  {
    assert keys[..i + 1][..i] == keys[..i] && results[..i + 1][..i] == results[..i];
  }

  /** Every new entry is the value of a successful callback with that key. */
  lemma {:induction false} CacheWritesOnlySuccesses<K, V>(cache0: map<K, V>, keys: seq<K>, results: seq<Result<V>>)
    requires |keys| == |results|
    ensures var r := CacheWrites(cache0, keys, results);
            forall k :: k in r && k !in cache0 ==>
              exists i :: 0 <= i < |keys| && keys[i] == k && results[i] == Success(r[k])
    decreases |keys|
  {
    if keys != [] {
      var n := |keys| - 1;
      CacheWritesOnlySuccesses(cache0, keys[..n], results[..n]);
      var c := CacheWrites(cache0, keys[..n], results[..n]);
      var r := CacheWrites(cache0, keys, results);
      forall k | k in r && k !in cache0
        ensures exists i :: 0 <= i < |keys| && keys[i] == k && results[i] == Success(r[k])
      {
        if k == keys[n] && results[n].Success? {
          assert results[n] == Success(r[k]);
        } else {
          var i :| 0 <= i < n && keys[..n][i] == k && results[..n][i] == Success(c[k]);
          assert keys[i] == k && results[i] == Success(r[k]);
        }
      }
    }
  }

  /** When callbacks with equal keys have equal outcomes, every successful callback whose key
      was not cached has its value in the cache under its key, whatever order the writes
      land in. */
  lemma {:induction false} CacheWritesCover<K, V>(cache0: map<K, V>, keys: seq<K>, results: seq<Result<V>>)
    requires |keys| == |results|
    requires forall i, j :: 0 <= i < |keys| && 0 <= j < |keys| && keys[i] == keys[j] ==> results[i] == results[j]
    ensures var r := CacheWrites(cache0, keys, results);
            forall i :: 0 <= i < |keys| && keys[i] !in cache0 && results[i].Success? ==>
              keys[i] in r && r[keys[i]] == results[i].value
    decreases |keys|
  {
    if keys != [] {
      var n := |keys| - 1;
      CacheWritesCover(cache0, keys[..n], results[..n]);
      var r := CacheWrites(cache0, keys, results);
      forall i | 0 <= i < |keys| && keys[i] !in cache0 && results[i].Success?
        ensures keys[i] in r && r[keys[i]] == results[i].value
      {
        if i < n {
          assert keys[..n][i] == keys[i] && results[..n][i] == results[i];
        }
      }
    }
  }

  /** The cache after the fan-out over the items of a page. */
  function PageWrites(cache0: Cache, items: seq<NamedRef>, api: Api): Cache {
    CacheWrites(cache0, ItemKeys(items), ResolveAll(cache0, items, api))
  }

  /** The outcome of a callback depends only on its item's key. */
  lemma SameKeySameOutcome(cache0: Cache, items: seq<NamedRef>, api: Api)
    ensures var keys := ItemKeys(items);
            var rs := ResolveAll(cache0, items, api);
            forall i, j :: 0 <= i < |keys| && 0 <= j < |keys| && keys[i] == keys[j] ==> rs[i] == rs[j]
  {
  }

  /** After a fan-out the cache holds everything it held before; each new entry is a record
      fetched for an item with that key; and when the page resolved, each of its records is
      cached under its item's key. */
  lemma {:induction false} PageIsCached(cache0: Cache, items: seq<NamedRef>, api: Api)
    ensures var c := PageWrites(cache0, items, api);
            && (forall k :: k in cache0 ==> k in c && c[k] == cache0[k])
            && (forall k :: k in c && k !in cache0 ==>
                  exists i :: 0 <= i < |items| && ItemKey(items[i]) == k && ResolveItem(cache0, items[i], api) == Success(c[k]))
    ensures ResolvePage(cache0, items, api).Success? ==>
              var page := ResolvePage(cache0, items, api).value;
              var c := PageWrites(cache0, items, api);
              forall i :: 0 <= i < |items| ==> ItemKey(items[i]) in c && c[ItemKey(items[i])] == page[i]
  {
    var keys := ItemKeys(items);
    var rs := ResolveAll(cache0, items, api);
    var c := PageWrites(cache0, items, api);
    CacheWritesOnlySuccesses(cache0, keys, rs);
    SameKeySameOutcome(cache0, items, api);
    CacheWritesCover(cache0, keys, rs);
    if ResolvePage(cache0, items, api).Success? {
      var page := ResolvePage(cache0, items, api).value;
      forall i | 0 <= i < |items|
        ensures ItemKey(items[i]) in c && c[ItemKey(items[i])] == page[i]
      {
        assert rs[i] == Success(page[i]);
      }
    }
  }

  /** The fields `fetchPokemonList` writes besides the page number and the loading flag. */
  datatype ListState = ListState(pokemonList: seq<Pokemon>, totalCount: nat, error: Option<string>, cache: Cache)

  /** `fetchPokemonList(page)` from the fields `before`. A failed list request only sets the
      error. Otherwise the count is taken and the cache gains the fetched records, keeping
      every record it held. The page is published, with the error cleared and each of its
      records cached under its item's key, only when every item resolved; else the old list
      stays and the item error is shown. */
  function ListFetched(before: ListState, page: int, perPage: nat, api: Api): (after: ListState)
    ensures var list := GetPokemonList(api, perPage, Pagination.Offset(page, perPage));
            list.Failure? ==> after == before.(error := Some(ErrorText(list.error, DefaultListError)))
    ensures forall k :: k in before.cache ==> k in after.cache && after.cache[k] == before.cache[k]
    ensures after.error.Some? ==> after.error.value != []
    ensures var list := GetPokemonList(api, perPage, Pagination.Offset(page, perPage));
            list.Success? ==>
              && after.totalCount == list.value.count
              && after.cache == PageWrites(before.cache, list.value.results, api)
    ensures var list := GetPokemonList(api, perPage, Pagination.Offset(page, perPage));
            list.Success? && ResolvePage(before.cache, list.value.results, api).Success? ==>
              && after.error == None
              && after.pokemonList == ResolvePage(before.cache, list.value.results, api).value
              && |after.pokemonList| == |list.value.results|
              && forall i :: 0 <= i < |list.value.results| ==>
                   var key := ItemKey(list.value.results[i]);
                   key in after.cache && after.cache[key] == after.pokemonList[i]
    ensures var list := GetPokemonList(api, perPage, Pagination.Offset(page, perPage));
            list.Success? && ResolvePage(before.cache, list.value.results, api).Failure? ==>
              && after.error == Some(ErrorText(ResolvePage(before.cache, list.value.results, api).error, DefaultListError))
              && after.pokemonList == before.pokemonList
  {
    var list := GetPokemonList(api, perPage, Pagination.Offset(page, perPage));
    if list.Failure? then before.(error := Some(ErrorText(list.error, DefaultListError)))
    else PageLoaded(before.pokemonList, before.cache, list.value, api)
  }

  /** The fields after a list response `body` arrived, from the list and the cache before: the
      count is taken, every fetched record is cached and none is lost; the page replaces the
      list, each record under its item's key, when every item resolved, and otherwise the
      list stays and the first item error is shown. */
  function PageLoaded(pokemonList: seq<Pokemon>, cache: Cache, body: ListBody, api: Api): (after: ListState)
    ensures after.totalCount == body.count && after.cache == PageWrites(cache, body.results, api)
    ensures forall k :: k in cache ==> k in after.cache && after.cache[k] == cache[k]
    ensures after.error.Some? ==> after.error.value != []
    ensures ResolvePage(cache, body.results, api).Success? ==>
              && after.error == None
              && after.pokemonList == ResolvePage(cache, body.results, api).value
              && |after.pokemonList| == |body.results|
              && forall i :: 0 <= i < |body.results| ==>
                   var key := ItemKey(body.results[i]);
                   key in after.cache && after.cache[key] == after.pokemonList[i]
    ensures ResolvePage(cache, body.results, api).Failure? ==>
              && after.error == Some(ErrorText(ResolvePage(cache, body.results, api).error, DefaultListError))
              && after.pokemonList == pokemonList
  {
    PageIsCached(cache, body.results, api);
    var resolved := ResolvePage(cache, body.results, api);
    var written := PageWrites(cache, body.results, api);
    if resolved.Success? then ListState(resolved.value, body.count, None, written)
    else ListState(pokemonList, body.count, Some(ErrorText(resolved.error, DefaultListError)), written)
  }

  /** The find test of `fetchPokemonDetail`: the record's name equals the input ignoring case,
      or its id equals `Number(input)`. */
  predicate MatchesInput(p: Pokemon, input: string) {
    Lower(p.name) == Lower(input) || NumberValue(input) == Some(p.id)
  }

  /** Some record of `cache` matches `input`. */
  predicate HasMatch(cache: Cache, input: string) {
    exists k :: k in cache && MatchesInput(cache[k], input)
  }

  /** `Object.values(pokemonCache).find(...)`: some cached record that matches the input, or
      none when no cached record does. */
  method FindCached(cache: Cache, input: string) returns (found: Option<Pokemon>)
    ensures found.Some? ==> exists k :: k in cache && cache[k] == found.value && MatchesInput(found.value, input)
    ensures found.None? <==> !HasMatch(cache, input)
  {
    var remaining := cache.Keys;
    while remaining != {}
      invariant remaining <= cache.Keys
      invariant forall k :: k in cache && k !in remaining ==> !MatchesInput(cache[k], input)
      decreases |remaining|
    {
      var k :| k in remaining;
      if MatchesInput(cache[k], input) {
        return Some(cache[k]);
      }
      remaining := remaining - {k};
    }
    return None;
  }

  /** A record is found by the decimal form of its own id, the form the detail route carries
      when a card of the list is opened. */
  lemma {:induction false} MatchesOwnId(p: Pokemon)
    ensures MatchesInput(p, NatToString(p.id))
  {
    var digits := NatToString(p.id);
    NumberValueReads(digits);
    ParseNatToString(p.id);
    assert NumberValue(digits) == Some(p.id);
  }

  /** Any cached record, also one the list flow cached without ability descriptions, is found
      by the decimal form of its id, so `fetchPokemonDetail` shows it as it is and fetches
      nothing. */
  lemma {:induction false} CachedRecordShortCircuits(cache: Cache, k: Option<nat>)
    requires k in cache
    ensures HasMatch(cache, NatToString(cache[k].id))
  {
    MatchesOwnId(cache[k]);
  }

  /** A record is found by its own name, whatever its case. */
  lemma MatchesOwnName(p: Pokemon, input: string)
    requires Lower(input) == Lower(p.name)
    ensures MatchesInput(p, input)
  {
  }

  /** `englishEntry?.short_effect || "No description available."`, where `englishEntry` is the
      first entry in English. */
  function EnglishShortEffect(entries: seq<EffectEntry>): (r: string)
    ensures r != []
    ensures (forall i :: 0 <= i < |entries| ==> entries[i].language != "en") ==> r == NoDescription
    ensures forall i :: 0 <= i < |entries| && entries[i].language == "en" &&
                        (forall j :: 0 <= j < i ==> entries[j].language != "en") ==>
              r == (if entries[i].shortEffect != [] then entries[i].shortEffect else NoDescription)
    decreases |entries|
  {
    if entries == [] then NoDescription
    else if entries[0].language == "en" then
      (if entries[0].shortEffect != [] then entries[0].shortEffect else NoDescription)
    else
      var r := EnglishShortEffect(entries[1..]);
      assert forall i :: 1 <= i < |entries| ==> entries[1..][i - 1] == entries[i];
      r
  }

  /** One callback of the ability fan-out: the ability's name and flag with its English short
      effect, or the placeholder when the lookup fails in any way. */
  function Describe(ability: RawAbility, api: Api): (r: Ability)
    ensures r.name == ability.abilityName && r.isHidden == ability.isHidden
    ensures r.description.Some? && r.description.value != []
    ensures GetAbility(api, ability.abilityName).Failure? ==> r.description == Some(NoDescription)
    ensures GetAbility(api, ability.abilityName).Success? ==>
              r.description == Some(EnglishShortEffect(GetAbility(api, ability.abilityName).value.effectEntries))
  {
    match GetAbility(api, ability.abilityName)
    case Failure(_) => Ability(ability.abilityName, ability.isHidden, Some(NoDescription))
    case Success(body) => Ability(ability.abilityName, ability.isHidden, Some(EnglishShortEffect(body.effectEntries)))
  }

  /** `Promise.all(data.abilities.map(...))`: never fails, keeps the abilities' order, names and
      flags, and gives each a non-empty description. */
  function AbilityDescriptions(raws: seq<RawAbility>, api: Api): (r: seq<Ability>)
    ensures |r| == |raws|
    ensures forall i :: 0 <= i < |raws| ==>
              && r[i].name == raws[i].abilityName
              && r[i].isHidden == raws[i].isHidden
              && r[i].description.Some? && r[i].description.value != []
    ensures forall i :: 0 <= i < |raws| ==> r[i] == Describe(raws[i], api)
  {
    seq(|raws|, i requires 0 <= i < |raws| => Describe(raws[i], api))
  }

  /** The record `fetchPokemonDetail` stores: `formatPokemonData` of the response with the
      described abilities in place of the bare ones. */
  function DetailRecord(raw: RawPokemon, api: Api): (r: Pokemon)
    ensures r.(abilities := []) == FormatPokemonData(raw).(abilities := [])
    ensures |r.abilities| == |raw.abilities|
    ensures forall i :: 0 <= i < |raw.abilities| ==>
              && r.abilities[i].name == FormatPokemonData(raw).abilities[i].name
              && r.abilities[i].isHidden == FormatPokemonData(raw).abilities[i].isHidden
              && r.abilities[i].description.Some?
    ensures r.abilities == AbilityDescriptions(raw.abilities, api)
  {
    FormatPokemonData(raw).(abilities := AbilityDescriptions(raw.abilities, api))
  }

  /** The error text of a failed detail load: the input named in a not-found message, the
      error's own message otherwise, and the default when that is empty. */
  function DetailError(input: string, message: string): (r: string)
    ensures r != []
    ensures message == NotFound ==> r == "Pokémon \"" + input + "\" not found"
    ensures message != NotFound && message != [] ==> r == message
    ensures message == [] ==> r == DefaultDetailError
  {
    if message == NotFound then "Pokémon \"" + input + "\" not found"
    else ErrorText(message, DefaultDetailError)
  }
}
