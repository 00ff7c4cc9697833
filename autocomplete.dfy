/** The store's `autocompleteSuggestions` getter: the name-index entries whose name contains
    the lower-cased query or whose id starts with it, the first eight in index order, and
    none at all for a query shorter than two characters. */
module Autocomplete {
  import opened JsText
  import opened PokeApi

  /** `MAX_AUTOCOMPLETE_SUGGESTIONS`, hard-coded as `.slice(0, 8)` in the getter. */
  const MaxSuggestions: nat := 8

  /** The filter's test: `p.name.includes(query) || String(p.id).startsWith(query)`. */
  predicate Matches(entry: NameEntry, query: string) {
    Contains(entry.name, query) || query <= NatToString(entry.id)
  }

  /** `names.filter(p => Matches(p, query))`. */
  function Filter(names: seq<NameEntry>, query: string): seq<NameEntry>
    decreases |names|
  {
    if names == [] then []
    else (if Matches(names[0], query) then [names[0]] else []) + Filter(names[1..], query)
  }

  /** How many entries of `names` match `query`. */
  function CountMatches(names: seq<NameEntry>, query: string): nat
    decreases |names|
  {
    if names == [] then 0
    else (if Matches(names[0], query) then 1 else 0) + CountMatches(names[1..], query)
  }

  /** `xs` is `ys` with some elements left out, the rest in their order. */
  ghost predicate IsSubsequence<T>(xs: seq<T>, ys: seq<T>)
    decreases |ys|
  {
    || xs == []
    || (&& ys != []
        && ((xs[0] == ys[0] && IsSubsequence(xs[1..], ys[1..])) || IsSubsequence(xs, ys[1..])))
  }

  /** `autocompleteSuggestions`. */
  function Suggestions(searchQuery: string, names: seq<NameEntry>): (r: seq<NameEntry>)
    ensures |searchQuery| < 2 ==> r == []
    ensures |r| <= MaxSuggestions
    ensures IsSubsequence(r, names)
    ensures forall e :: e in r ==> e in names && Matches(e, Lower(searchQuery))
    ensures |searchQuery| >= 2 ==>
              |r| == (if CountMatches(names, Lower(searchQuery)) < MaxSuggestions
                      then CountMatches(names, Lower(searchQuery)) else MaxSuggestions)
    ensures |searchQuery| >= 2 ==>
              forall i :: (&& 0 <= i < |names| && Matches(names[i], Lower(searchQuery))
                           && CountMatches(names[..i], Lower(searchQuery)) < MaxSuggestions) ==> names[i] in r
  {
    if |searchQuery| < 2 then []
    else
      var query := Lower(searchQuery);
      var all := Filter(names, query);
      FilterFacts(names, query);
      PrefixIsSubsequence(all, names, if |all| <= MaxSuggestions then |all| else MaxSuggestions);
      assert all[..|all|] == all;
      FilterKeepsEarlyMatches(names, query);
      if |all| <= MaxSuggestions then all else all[..MaxSuggestions]
  }

  lemma {:induction false} FilterFacts(names: seq<NameEntry>, query: string)
    ensures |Filter(names, query)| == CountMatches(names, query)
    ensures IsSubsequence(Filter(names, query), names)
    ensures forall e :: e in Filter(names, query) ==> e in names && Matches(e, query)
    decreases |names|
  {
    if names != [] {
      FilterFacts(names[1..], query);
      var rest := Filter(names[1..], query);
      if Matches(names[0], query) {
        assert Filter(names, query) == [names[0]] + rest;
        assert ([names[0]] + rest)[1..] == rest;
      } else {
        assert Filter(names, query) == rest;
      }
    }
  }

  lemma {:induction false} PrefixIsSubsequence<T>(xs: seq<T>, ys: seq<T>, k: nat)
    requires k <= |xs| && IsSubsequence(xs, ys)
    ensures IsSubsequence(xs[..k], ys)
    decreases |ys|
  {
    if k == 0 {
      assert xs[..k] == [];
    } else if xs[0] == ys[0] && IsSubsequence(xs[1..], ys[1..]) {
      PrefixIsSubsequence(xs[1..], ys[1..], k - 1);
      assert xs[..k][1..] == xs[1..][..k - 1];
    } else {
      PrefixIsSubsequence(xs, ys[1..], k);
    }
  }

  lemma {:induction false} FilterAppend(a: seq<NameEntry>, b: seq<NameEntry>, query: string)
    ensures Filter(a + b, query) == Filter(a, query) + Filter(b, query)
    decreases |a|
  {
    if a == [] {
      assert a + b == b;
    } else {
      var head := if Matches(a[0], query) then [a[0]] else [];
      assert (a + b)[0] == a[0] && (a + b)[1..] == a[1..] + b;
      FilterAppend(a[1..], b, query);
      assert Filter(a + b, query) == head + Filter(a[1..] + b, query);
      assert head + (Filter(a[1..], query) + Filter(b, query)) == (head + Filter(a[1..], query)) + Filter(b, query);
    }
  }

  /** A match preceded by fewer than `MaxSuggestions` matches is among the first
      `MaxSuggestions` entries of the filtered index. */
  lemma FilterKeepsEarlyMatches(names: seq<NameEntry>, query: string)
    ensures var all := Filter(names, query);
            forall i :: 0 <= i < |names| && Matches(names[i], query)
                        && CountMatches(names[..i], query) < MaxSuggestions ==>
                          names[i] in (if |all| <= MaxSuggestions then all else all[..MaxSuggestions])
  {
    var all := Filter(names, query);
    forall i | 0 <= i < |names| && Matches(names[i], query) && CountMatches(names[..i], query) < MaxSuggestions
      ensures names[i] in (if |all| <= MaxSuggestions then all else all[..MaxSuggestions])
    {
      assert names == names[..i] + ([names[i]] + names[i + 1..]);
      FilterAppend(names[..i], [names[i]] + names[i + 1..], query);
      FilterFacts(names[..i], query);
      var k := |Filter(names[..i], query)|;
      assert [names[i]] + names[i + 1..] != [] && ([names[i]] + names[i + 1..])[0] == names[i];
      assert all[k] == names[i];
    }
  }
}
