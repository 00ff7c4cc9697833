/** The request layer over the remote catalog. The network is an oracle (`Api`): for each
    endpoint, what a request with the given arguments produces, either a response (status
    and decoded body) or a thrown error. What is modelled is what the client does with
    that: the timeout message, the status-to-message classification of each endpoint,
    the lower-casing of the item identifier and the positional numbering of the name index. */
module PokeApi {
  import opened Wrappers
  import opened JsText

  const TimedOut := "Request timed out"
  const ListFailed := "Failed to fetch Pokémon list"
  const NotFound := "Pokémon not found"
  const PokemonFailed := "Failed to fetch Pokémon"
  const SpeciesFailed := "Failed to fetch species info"
  const AbilityFailed := "Failed to fetch ability info"
  const NamesFailed := "Failed to fetch Pokémon names"

  /** A response that arrived: its HTTP status and its decoded JSON body. */
  datatype Response<T> = Response(status: int, body: T)

  /** What `fetch` does: resolve with a response, or reject with an error of the given
      `name` ("AbortError" when the 10 s timer aborted the request) and `message`. */
  datatype Transport<T> = Delivered(response: Response<T>) | Thrown(name: string, message: string)

  /** `response.ok`. */
  predicate IsOk(status: int) {
    200 <= status <= 299
  }

  /** One `{name, url}` item of a list response. */
  datatype NamedRef = NamedRef(name: string, url: string)

  /** The body of `/pokemon?limit=&offset=`. */
  datatype ListBody = ListBody(count: nat, results: seq<NamedRef>)

  datatype RawType = RawType(slot: int, typeName: string)
  datatype RawStat = RawStat(statName: string, baseStat: int)
  datatype RawAbility = RawAbility(abilityName: string, isHidden: bool)

  /** `sprites`; `officialArtwork` is `sprites.other?.["official-artwork"]?.front_default`. */
  datatype RawSprites = RawSprites(
    frontDefault: Option<string>,
    backDefault: Option<string>,
    frontShiny: Option<string>,
    backShiny: Option<string>,
    officialArtwork: Option<string>)

  /** The body of `/pokemon/{idOrName}`, with height in decimetres and weight in hectograms. */
  datatype RawPokemon = RawPokemon(
    id: nat,
    name: string,
    height: nat,
    weight: nat,
    types: seq<RawType>,
    stats: seq<RawStat>,
    sprites: RawSprites,
    abilities: seq<RawAbility>)

  /** One entry of an ability's `effect_entries`. */
  datatype EffectEntry = EffectEntry(language: string, shortEffect: string)

  /** The body of `/ability/{name}`. */
  datatype AbilityBody = AbilityBody(effectEntries: seq<EffectEntry>)

  /** The body of `/pokemon-species/{id}`; the client passes it on without reading it. */
  datatype SpeciesBody = SpeciesBody(json: string)

  /** One entry of the autocomplete name index. */
  datatype NameEntry = NameEntry(name: string, id: nat)

  /** The catalog as seen through `fetch`, one oracle per endpoint, keyed by what the URL
      carries: `limit` and `offset`, the item identifier, the species id, the ability name. */
  datatype Api = Api(
    list: (int, int) -> Transport<ListBody>,
    pokemon: string -> Transport<RawPokemon>,
    species: int -> Transport<SpeciesBody>,
    ability: string -> Transport<AbilityBody>,
    allNames: Transport<ListBody>)

  /** `fetchWithTimeout`: an abort becomes "Request timed out"; any other rejection is passed
      on with its own message; a response is passed on whatever its status. */
  function FetchWithTimeout<T>(t: Transport<T>): (r: Result<Response<T>>)
    ensures t.Delivered? <==> r.Success?
    ensures t.Delivered? ==> r.value == t.response
    ensures t.Thrown? && t.name == "AbortError" ==> r.error == TimedOut
    ensures t.Thrown? && t.name != "AbortError" ==> r.error == t.message
  {
    match t
    case Delivered(response) => Success(response)
    case Thrown(name, message) => if name == "AbortError" then Failure(TimedOut) else Failure(message)
  }

  /** The shared shape of the endpoints: the body of an ok response, `failed` for any other
      status, and the transport's own error when no response arrived. */
  function Checked<T>(t: Transport<T>, failed: string): (r: Result<T>)
    ensures t.Delivered? && IsOk(t.response.status) <==> r.Success?
    ensures r.Success? ==> r.value == t.response.body
    ensures t.Delivered? && !IsOk(t.response.status) ==> r == Failure(failed)
    ensures t.Thrown? ==> r == Failure(FetchWithTimeout(t).error)
  {
    match FetchWithTimeout(t)
    case Failure(e) => Failure(e)
    case Success(response) => if IsOk(response.status) then Success(response.body) else Failure(failed)
  }

  /** `getPokemonList(limit, offset)`: every non-ok status is the one list message. */
  function GetPokemonList(api: Api, limit: int, offset: int): (r: Result<ListBody>)
    ensures var t := api.list(limit, offset);
            && (t.Delivered? && !IsOk(t.response.status) ==> r == Failure(ListFailed))
            && (t.Delivered? && IsOk(t.response.status) ==> r == Success(t.response.body))
  {
    Checked(api.list(limit, offset), ListFailed)
  }

  /** `getPokemon(nameOrId)`: requests the lower-cased identifier; 404 is "Pokémon not found",
      any other non-ok status "Failed to fetch Pokémon". */
  function GetPokemon(api: Api, nameOrId: string): (r: Result<RawPokemon>)
    ensures var t := api.pokemon(Lower(nameOrId));
            && (t.Delivered? && t.response.status == 404 ==> r == Failure(NotFound))
            && (t.Delivered? && !IsOk(t.response.status) && t.response.status != 404 ==> r == Failure(PokemonFailed))
            && (t.Delivered? && IsOk(t.response.status) ==> r == Success(t.response.body))
            && (t.Thrown? ==> r == Failure(FetchWithTimeout(t).error))
  {
    var identifier := Lower(nameOrId);
    var t := api.pokemon(identifier);
    if t.Delivered? && !IsOk(t.response.status) && t.response.status == 404 then Failure(NotFound)
    else Checked(t, PokemonFailed)
  }

  /** An identifier and its lower-case form are the same request, so the lookup ignores
      ASCII case. */
  lemma GetPokemonIgnoresCase(api: Api, nameOrId: string)
    ensures GetPokemon(api, Lower(nameOrId)) == GetPokemon(api, nameOrId)
  {
    LowerIdempotent(nameOrId);
  }

  /** `getPokemonSpecies(id)`: every non-ok status is the one species message, 404 included. */
  function GetPokemonSpecies(api: Api, id: int): (r: Result<SpeciesBody>)
    ensures var t := api.species(id);
            && (t.Delivered? && !IsOk(t.response.status) ==> r == Failure(SpeciesFailed))
            && (t.Delivered? && IsOk(t.response.status) ==> r == Success(t.response.body))
  {
    Checked(api.species(id), SpeciesFailed)
  }

  /** `getAbility(name)`: every non-ok status is the one ability message, 404 included. */
  function GetAbility(api: Api, name: string): (r: Result<AbilityBody>)
    ensures var t := api.ability(name);
            && (t.Delivered? && !IsOk(t.response.status) ==> r == Failure(AbilityFailed))
            && (t.Delivered? && IsOk(t.response.status) ==> r == Success(t.response.body))
  {
    Checked(api.ability(name), AbilityFailed)
  }

  /** `data.results.map((p, index) => ({name: p.name, id: index + 1}))`, numbering from
      `first`: one entry per result, in the same order, numbered by position. */
  function NumberEntries(results: seq<NamedRef>, first: nat): (r: seq<NameEntry>)
    ensures |r| == |results|
    ensures forall i :: 0 <= i < |results| ==> r[i] == NameEntry(results[i].name, first + i)
    decreases |results|
  {
    if results == [] then []
    else [NameEntry(results[0].name, first)] + NumberEntries(results[1..], first + 1)
  }

  /** `getAllPokemonNames()`: on an ok response, the results numbered 1, 2, ... by position,
      so the ids of the index are distinct and increasing. */
  function GetAllPokemonNames(api: Api): (r: Result<seq<NameEntry>>)
    ensures var t := api.allNames;
            && (t.Delivered? && !IsOk(t.response.status) ==> r == Failure(NamesFailed))
            && (t.Delivered? && IsOk(t.response.status) ==>
                  && r.Success?
                  && |r.value| == |t.response.body.results|
                  && forall i :: 0 <= i < |r.value| ==>
                       r.value[i].name == t.response.body.results[i].name && r.value[i].id == i + 1)
  {
    match Checked(api.allNames, NamesFailed)
    case Failure(e) => Failure(e)
    case Success(body) => Success(NumberEntries(body.results, 1))
  }
}
