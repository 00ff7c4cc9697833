/** The store's record helpers: the display-ready record `formatPokemonData` builds from a
    catalog response, and `extractIdFromUrl`, which reads the id out of a list item's URL. */
module PokemonRecords {
  import opened Wrappers
  import opened JsText
  import opened PokeApi

  datatype Sprites = Sprites(
    front: Option<string>,
    back: Option<string>,
    frontShiny: Option<string>,
    backShiny: Option<string>,
    artwork: Option<string>)

  datatype Stat = Stat(name: string, value: int)

  /** An ability of a record; `description` is absent until the detail flow has looked it up. */
  datatype Ability = Ability(name: string, isHidden: bool, description: Option<string>)

  /** A formatted record. Height and weight are kept as integer tenths of a metre and of a
      kilogram: the source's `height / 10` is the number `heightTenths / 10`. */
  datatype Pokemon = Pokemon(
    id: nat,
    name: string,
    heightTenths: nat,
    weightTenths: nat,
    types: seq<string>,
    stats: seq<Stat>,
    sprites: Sprites,
    abilities: seq<Ability>)

  /** `a || b` on an optional string: `a` unless it is missing or empty. */
  function OrElse(a: Option<string>, b: Option<string>): Option<string> {
    if a.Some? && a.value != "" then a else b
  }

  /** `formatPokemonData(data)`: the same id and name, height and weight in tenths of the
      display unit, the type names, the stats and the abilities in the response's order,
      the official artwork or else the default front sprite, and no ability descriptions. */
  function FormatPokemonData(data: RawPokemon): (r: Pokemon)
    ensures r.id == data.id && r.name == data.name
    ensures r.heightTenths == data.height && r.weightTenths == data.weight
    ensures |r.types| == |data.types| && forall i :: 0 <= i < |r.types| ==> r.types[i] == data.types[i].typeName
    ensures |r.stats| == |data.stats|
    ensures forall i :: 0 <= i < |r.stats| ==>
              r.stats[i].name == data.stats[i].statName && r.stats[i].value == data.stats[i].baseStat
    ensures |r.abilities| == |data.abilities|
    ensures forall i :: 0 <= i < |r.abilities| ==>
              r.abilities[i] == Ability(data.abilities[i].abilityName, data.abilities[i].isHidden, None)
    ensures r.sprites.front == data.sprites.frontDefault && r.sprites.back == data.sprites.backDefault
    ensures r.sprites.frontShiny == data.sprites.frontShiny && r.sprites.backShiny == data.sprites.backShiny
    ensures data.sprites.officialArtwork.Some? && data.sprites.officialArtwork.value != "" ==>
              r.sprites.artwork == data.sprites.officialArtwork
    ensures data.sprites.officialArtwork.None? || data.sprites.officialArtwork.value == "" ==>
              r.sprites.artwork == data.sprites.frontDefault
  {
    Pokemon(
      data.id,
      data.name,
      data.height,
      data.weight,
      seq(|data.types|, i requires 0 <= i < |data.types| => data.types[i].typeName),
      seq(|data.stats|, i requires 0 <= i < |data.stats| => Stat(data.stats[i].statName, data.stats[i].baseStat)),
      Sprites(
        data.sprites.frontDefault,
        data.sprites.backDefault,
        data.sprites.frontShiny,
        data.sprites.backShiny,
        OrElse(data.sprites.officialArtwork, data.sprites.frontDefault)),
      seq(|data.abilities|, i requires 0 <= i < |data.abilities| =>
        Ability(data.abilities[i].abilityName, data.abilities[i].isHidden, None)))
  }

  /** The literal part of the pattern `/\/pokemon\/(\d+)\//`. */
  const Marker := "/pokemon/"

  /** The length of the run of decimal digits at the start of `s`. */
  function DigitRun(s: string): (k: nat)
    ensures k <= |s| && AllDigits(s[..k])
    ensures k < |s| ==> !IsDigit(s[k])
    decreases |s|
  {
    if s == [] || !IsDigit(s[0]) then 0
    else
      var k := 1 + DigitRun(s[1..]);
      assert s[..k] == [s[0]] + s[1..][..k - 1];
      k
  }

  /** The pattern tried at index `i`: "/pokemon/", then one or more digits (greedily), then
      '/'. A match gives the value of the digits. */
  function MatchAt(url: string, i: nat): Option<nat>
    requires i <= |url|
  {
    if Marker <= url[i..] then
      var rest := url[i + |Marker|..];
      var k := DigitRun(rest);
      if 0 < k < |rest| && rest[k] == '/' then Some(ParseDigits(rest[..k])) else None
    else None
  }

  /** The segment the pattern looks for, around the digits `d`. */
  function Segment(d: string): string {
    Marker + d + "/"
  }

  /** A match at `i` is exactly a segment "/pokemon/<digits>/" starting there, and its value is
      the value of those digits. */
  lemma MatchAtSpec(url: string, i: nat)
    requires i <= |url|
    ensures MatchAt(url, i).Some? <==> exists d :: d != [] && AllDigits(d) && Segment(d) <= url[i..]
    ensures forall d :: d != [] && AllDigits(d) && Segment(d) <= url[i..] ==> MatchAt(url, i) == Some(ParseDigits(d))
  {
    forall d | d != [] && AllDigits(d) && Segment(d) <= url[i..]
      ensures MatchAt(url, i) == Some(ParseDigits(d))
    {
      SegmentMatches(url, i, d);
    }
    if MatchAt(url, i).Some? {
      MatchHasSegment(url, i);
    }
  }

  lemma MatchHasSegment(url: string, i: nat)
    requires i <= |url| && MatchAt(url, i).Some?
    ensures var rest := url[i + |Marker|..];
            var d := rest[..DigitRun(rest)];
            d != [] && AllDigits(d) && Segment(d) <= url[i..]
  {
    var rest := url[i + |Marker|..];
    var k := DigitRun(rest);
    var d := rest[..k];
    assert url[i..] == Marker + rest;
    assert rest[..k + 1] == d + "/";
    assert Segment(d) == Marker + rest[..k + 1];
  }

  lemma SegmentMatches(url: string, i: nat, d: string)
    requires i <= |url| && d != [] && AllDigits(d) && Segment(d) <= url[i..]
    ensures MatchAt(url, i) == Some(ParseDigits(d))
  {
    assert Marker <= url[i..] by {
      assert url[i..][..|Marker|] == Segment(d)[..|Marker|];
    }
    var rest := url[i + |Marker|..];
    assert rest[..|d| + 1] == d + "/" by {
      assert rest[..|d| + 1] == url[i..][|Marker|..|Segment(d)|];
    }
    assert rest == d + rest[|d|..];
    DigitRunOf(d, rest[|d|..]);
    assert rest[..|d|] == d;
  }

  /** No match starts at any index from `i` up to, not including, `j`. */
  predicate NoMatchBetween(url: string, i: nat, j: nat)
    requires j <= |url|
  {
    forall k :: i <= k < j ==> MatchAt(url, k).None?
  }

  /** A span with no match grows by one index on the left where nothing matches. */
  lemma NoMatchExtend(url: string, i: nat, j: nat)
    requires i < j <= |url|
    requires MatchAt(url, i).None? && NoMatchBetween(url, i + 1, j)
    ensures NoMatchBetween(url, i, j)
  {
    forall k | i <= k < j
      ensures MatchAt(url, k).None?
    {
      if k > i {
        assert i + 1 <= k < j;
      }
    }
  }

  /** The leftmost match at index `i` or later. */
  function FirstMatchFrom(url: string, i: nat): Option<nat>
    requires i <= |url|
    decreases |url| - i
  {
    if MatchAt(url, i).Some? then MatchAt(url, i)
    else if i == |url| then None
    else FirstMatchFrom(url, i + 1)
  }

  /** The search finds nothing exactly when no index from `i` on matches, and otherwise
      returns the match at an index before which, from `i`, nothing matches. */
  lemma {:induction false} FirstMatchFromSpec(url: string, i: nat)
    requires i <= |url|
    ensures FirstMatchFrom(url, i).None? <==> NoMatchBetween(url, i, |url|) && MatchAt(url, |url|).None?
    ensures FirstMatchFrom(url, i).Some? ==>
              exists j :: i <= j <= |url| && MatchAt(url, j) == FirstMatchFrom(url, i) && NoMatchBetween(url, i, j)
    decreases |url| - i
  {
    if MatchAt(url, i).Some? {
      assert NoMatchBetween(url, i, i);
    } else if i < |url| {
      FirstMatchFromSpec(url, i + 1);
      var r := FirstMatchFrom(url, i + 1);
      if r.Some? {
        var j :| i + 1 <= j <= |url| && MatchAt(url, j) == r && NoMatchBetween(url, i + 1, j);
        NoMatchExtend(url, i, j);
      } else {
        NoMatchExtend(url, i, |url|);
      }
    }
  }

  /** The search returns the match at `j` when nothing matches from `i` up to `j`. */
  lemma {:induction false} FirstMatchFromIs(url: string, i: nat, j: nat)
    requires i <= j <= |url|
    requires NoMatchBetween(url, i, j) && MatchAt(url, j).Some?
    ensures FirstMatchFrom(url, i) == MatchAt(url, j)
    decreases j - i
  {
    if i < j {
      assert MatchAt(url, i).None?;
      assert NoMatchBetween(url, i + 1, j);
      FirstMatchFromIs(url, i + 1, j);
    }
  }

  /** `extractIdFromUrl(url)`: the number in the leftmost "/pokemon/<digits>/" of the URL,
      or null (`None`) when the URL has no such segment. */
  function ExtractIdFromUrl(url: string): (r: Option<nat>)
    ensures r.None? <==> forall j :: 0 <= j <= |url| ==> MatchAt(url, j).None?
    ensures r.Some? ==> exists j :: 0 <= j <= |url| && MatchAt(url, j) == r && NoMatchBetween(url, 0, j)
  {
    FirstMatchFromSpec(url, 0);
    FirstMatchFrom(url, 0)
  }

  lemma {:induction false} DigitRunOf(d: string, t: string)
    requires AllDigits(d)
    requires t == [] || !IsDigit(t[0])
    ensures DigitRun(d + t) == |d|
    decreases |d|
  {
    if d != [] {
      assert (d + t)[1..] == d[1..] + t;
      DigitRunOf(d[1..], t);
    } else {
      assert d + t == t;
    }
  }

  /** The resource URL the catalog puts in list items: `base` + "/pokemon/" + id + "/". */
  function ResourceUrl(base: string, id: nat): string {
    base + Marker + NatToString(id) + "/"
  }

  /** With no "/pokemon/" starting inside `base`, nothing matches before the end of `base`. */
  lemma NoMatchInBase(base: string, tail: string)
    requires forall j :: 0 <= j < |base| ==> !(Marker <= (base + Marker)[j..])
    ensures NoMatchBetween(base + Marker + tail, 0, |base|)
  {
    var x := base + Marker;
    var url := x + tail;
    forall j | 0 <= j < |base| ensures MatchAt(url, j).None? {
      assert url[j..] == x[j..] + tail;
      assert (x[j..] + tail)[..|Marker|] == x[j..][..|Marker|];
    }
  }

  lemma MatchAtResource(base: string, id: nat, suffix: string)
    ensures |base| <= |ResourceUrl(base, id) + suffix|
    ensures MatchAt(ResourceUrl(base, id) + suffix, |base|) == Some(id)
  {
    var digits := NatToString(id);
    var url := ResourceUrl(base, id) + suffix;
    assert url == base + Marker + (digits + ("/" + suffix));
    var rest := url[|base| + |Marker|..];
    assert rest == digits + ("/" + suffix);
    DigitRunOf(digits, "/" + suffix);
    assert rest[..|digits|] == digits;
    ParseNatToString(id);
    assert url[|base|..] == Marker + rest;
  }

  /** `extractIdFromUrl` reads back the id of a resource URL, whatever follows it, as long as
      "/pokemon/" does not already start inside `base`. */
  lemma ExtractResourceId(base: string, id: nat, suffix: string)
    requires forall j :: 0 <= j < |base| ==> !(Marker <= (base + Marker)[j..])
    ensures ExtractIdFromUrl(ResourceUrl(base, id) + suffix) == Some(id)
  {
    var url := ResourceUrl(base, id) + suffix;
    var tail := NatToString(id) + "/" + suffix;
    assert url == base + Marker + tail;
    NoMatchInBase(base, tail);
    MatchAtResource(base, id, suffix);
    FirstMatchFromIs(url, 0, |base|);
  }

  /** The catalog's own base URL never contains "/pokemon/", so its list-item URLs read back
      as their ids. */
  lemma ExtractCatalogId(id: nat)
    ensures ExtractIdFromUrl(ResourceUrl("https://pokeapi.co/api/v2", id)) == Some(id)
  {
    var base := "https://pokeapi.co/api/v2";
    var x := base + Marker;
    assert 'm' !in base && Marker[5] == 'm';
    forall j | 0 <= j < |base| ensures !(Marker <= x[j..]) {
      if j + 5 < |base| {
        assert x[j + 5] == base[j + 5];
      } else {
        assert x[j + 5] == Marker[j + 5 - |base|];
      }
      assert x[j..][5] != 'm';
    }
    ExtractResourceId(base, id, "");
    assert ResourceUrl(base, id) + "" == ResourceUrl(base, id);
  }
}
