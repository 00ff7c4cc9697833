/** The search box: the typed query, the debounced hand-over of the query to the store, the
    suggestion list and its keyboard highlight, and the navigations it triggers. `SearchState`
    and its transitions say what each event does; `SearchController` performs them on its
    fields and on the store's query. The debounce timer is the explicit event `FireTimer`. */
module PokemonSearch {
  import opened Wrappers
  import opened JsText
  import opened PokeApi
  import Store

  /** The detail route; a navigation is recorded as the path pushed. */
  const DetailRoute := "/pokemon/"

  datatype Key = ArrowDown | ArrowUp | Enter | Escape | OtherKey(name: string)

  /** `pending` is the value the one debounce timer will hand to the store, `None` when no timer
      is scheduled; `storeQuery` is the store's `searchQuery`; `navigations` logs the router. */
  datatype SearchState = SearchState(
    query: string,
    showAutocomplete: bool,
    highlightedIndex: int,
    pending: Option<string>,
    storeQuery: string,
    navigations: seq<string>)

  /** The state the search box starts in, beside a store whose query is `storeQuery`. */
  function Initial(storeQuery: string): SearchState {
    SearchState([], false, -1, None, storeQuery, [])
  }

  /** Assigning the query. The watcher runs only when the value changed; it then cancels the
      pending timer and schedules one for the new value. */
  function QueryWritten(s: SearchState, v: string): (t: SearchState)
    ensures t.query == v
    ensures v != s.query ==> t.pending == Some(v)
    ensures v == s.query ==> t == s
    ensures t.(query := s.query, pending := s.pending) == s
  {
    if v == s.query then s else s.(query := v, pending := Some(v))
  }

  /** The debounce timer fires: the store receives the value, and the suggestions are shown
      (with no highlight) exactly when it has at least two characters. */
  function TimerFired(s: SearchState): (t: SearchState)
    ensures s.pending.None? ==> t == s
    ensures s.pending.Some? ==>
              && t.pending == None
              && t.storeQuery == s.pending.value
              && (t.showAutocomplete <==> |s.pending.value| >= 2)
              && t.highlightedIndex == (if |s.pending.value| >= 2 then -1 else s.highlightedIndex)
              && t.query == s.query && t.navigations == s.navigations
  {
    match s.pending
    case None => s
    case Some(v) =>
      if |v| >= 2 then s.(pending := None, storeQuery := v, showAutocomplete := true, highlightedIndex := -1)
      else s.(pending := None, storeQuery := v, showAutocomplete := false)
  }

  /** `handleSearch`: a blank query does nothing; otherwise the list is hidden, the detail route
      of the trimmed, lower-cased query is pushed, and both queries are cleared. The highlight
      is left as it was. */
  function SearchSubmitted(s: SearchState): (t: SearchState)
    ensures Trim(s.query) == [] ==> t == s
    ensures Trim(s.query) != [] ==>
              && !t.showAutocomplete
              && t.navigations == s.navigations + [DetailRoute + Lower(Trim(s.query))]
              && t.query == [] && t.storeQuery == [] && t.pending == Some([])
              && t.highlightedIndex == s.highlightedIndex
  {
    var query := Trim(s.query);
    if query == [] then s
    else
      var hidden := s.(showAutocomplete := false, navigations := s.navigations + [DetailRoute + Lower(query)]);
      QueryWritten(hidden, []).(storeQuery := [])
  }

  /** `handleSelect(pokemon)`: hides the list, clears both queries and pushes the detail route of
      the chosen name, as it is. The highlight is left as it was. */
  function SuggestionSelected(s: SearchState, name: string): (t: SearchState)
    ensures !t.showAutocomplete && t.query == [] && t.storeQuery == []
    ensures t.navigations == s.navigations + [DetailRoute + name]
    ensures t.highlightedIndex == s.highlightedIndex
    ensures t.pending == if s.query != [] then Some([]) else s.pending
  {
    QueryWritten(s.(showAutocomplete := false), []).(storeQuery := [], navigations := s.navigations + [DetailRoute + name])
  }

  /** `handleSelect(undefined)`, reached by Enter on a highlight past the end of the list: it
      hides the list and clears both queries, then throws before navigating. */
  function SelectMissing(s: SearchState): (t: SearchState)
    ensures !t.showAutocomplete && t.query == [] && t.storeQuery == []
    ensures t.navigations == s.navigations && t.highlightedIndex == s.highlightedIndex
  {
    QueryWritten(s.(showAutocomplete := false), []).(storeQuery := [])
  }

  function Min(a: int, b: int): int { if a <= b then a else b }
  function Max(a: int, b: int): int { if a >= b then a else b }

  /** `handleKeydown(event)` against the current suggestions. */
  function KeyPressed(s: SearchState, key: Key, suggestions: seq<NameEntry>): (t: SearchState)
    ensures !s.showAutocomplete || suggestions == [] ==> t == (if key == Enter then SearchSubmitted(s) else s)
    ensures s.showAutocomplete && suggestions != [] ==>
              match key
              case ArrowDown => t == s.(highlightedIndex := Min(s.highlightedIndex + 1, |suggestions| - 1))
              case ArrowUp => t == s.(highlightedIndex := Max(s.highlightedIndex - 1, -1))
              case Enter =>
                if s.highlightedIndex < 0 then t == SearchSubmitted(s)
                else if s.highlightedIndex < |suggestions| then t == SuggestionSelected(s, suggestions[s.highlightedIndex].name)
                else t == SelectMissing(s)
              case Escape => t == s.(showAutocomplete := false, highlightedIndex := -1)
              case OtherKey(_) => t == s
  {
    if !s.showAutocomplete || |suggestions| == 0 then
      (if key == Enter then SearchSubmitted(s) else s)
    else
      match key
      case ArrowDown => s.(highlightedIndex := Min(s.highlightedIndex + 1, |suggestions| - 1))
      case ArrowUp => s.(highlightedIndex := Max(s.highlightedIndex - 1, -1))
      case Enter =>
        if s.highlightedIndex >= 0 then
          (if s.highlightedIndex < |suggestions| then SuggestionSelected(s, suggestions[s.highlightedIndex].name)
           else SelectMissing(s))
        else SearchSubmitted(s)
      case Escape => s.(showAutocomplete := false, highlightedIndex := -1)
      case OtherKey(_) => s
  }

  /** `closeAutocomplete`: hides the list and drops the highlight; nothing else changes. */
  function AutocompleteClosed(s: SearchState): (t: SearchState)
    ensures !t.showAutocomplete && t.highlightedIndex == -1
    ensures t.(showAutocomplete := s.showAutocomplete, highlightedIndex := s.highlightedIndex) == s
  {
    s.(showAutocomplete := false, highlightedIndex := -1)
  }

  /** A scheduled timer always carries the current query: each change reschedules it. */
  predicate TimerCarriesQuery(s: SearchState) {
    s.pending.Some? ==> s.pending.value == s.query
  }

  /** While the list is shown, the highlight is "none" (-1) or one of `n` suggestions. */
  predicate HighlightInRange(s: SearchState, n: nat) {
    s.showAutocomplete ==> -1 <= s.highlightedIndex < n
  }

  /** With no timer scheduled, the store has caught up with the query. It holds from
      `Initial([])` on, the store's query being empty until the search box hands one over. */
  predicate StoreSyncedWhenIdle(s: SearchState) {
    s.pending.None? ==> s.storeQuery == s.query
  }

  /** Every event keeps the store caught up whenever no timer is pending. */
  lemma EventsKeepStoreSynced(s: SearchState, v: string, name: string, key: Key, suggestions: seq<NameEntry>)
    requires TimerCarriesQuery(s) && StoreSyncedWhenIdle(s)
    ensures StoreSyncedWhenIdle(QueryWritten(s, v)) && StoreSyncedWhenIdle(TimerFired(s))
    ensures StoreSyncedWhenIdle(SearchSubmitted(s)) && StoreSyncedWhenIdle(SuggestionSelected(s, name))
    ensures StoreSyncedWhenIdle(KeyPressed(s, key, suggestions)) && StoreSyncedWhenIdle(AutocompleteClosed(s))
  {
    var t := KeyPressed(s, key, suggestions);
    if s.showAutocomplete && suggestions != [] && key == Enter && s.highlightedIndex >= 0 {
      if s.highlightedIndex < |suggestions| {
        assert t == SuggestionSelected(s, suggestions[s.highlightedIndex].name);
      } else {
        assert t == SelectMissing(s);
      }
    }
  }

  /** Every event keeps both invariants, the suggestions being `suggestions` throughout. */
  lemma {:induction false} EventsKeepInvariants(s: SearchState, v: string, name: string, key: Key, suggestions: seq<NameEntry>)
    requires TimerCarriesQuery(s) && HighlightInRange(s, |suggestions|)
    ensures TimerCarriesQuery(QueryWritten(s, v)) && HighlightInRange(QueryWritten(s, v), |suggestions|)
    ensures TimerCarriesQuery(TimerFired(s)) && HighlightInRange(TimerFired(s), |suggestions|)
    ensures TimerCarriesQuery(SearchSubmitted(s)) && HighlightInRange(SearchSubmitted(s), |suggestions|)
    ensures TimerCarriesQuery(SuggestionSelected(s, name)) && HighlightInRange(SuggestionSelected(s, name), |suggestions|)
    ensures TimerCarriesQuery(KeyPressed(s, key, suggestions)) && HighlightInRange(KeyPressed(s, key, suggestions), |suggestions|)
    ensures TimerCarriesQuery(AutocompleteClosed(s)) && HighlightInRange(AutocompleteClosed(s), |suggestions|)
  {
    var t := KeyPressed(s, key, suggestions);
    if s.showAutocomplete && suggestions != [] && key == Enter && s.highlightedIndex >= 0 {
      assert t == SuggestionSelected(s, suggestions[s.highlightedIndex].name);
    }
  }

  /** With the invariants, Enter on a highlighted suggestion always selects it: the
      highlight never points past the end of the list. */
  lemma EnterSelectsHighlighted(s: SearchState, suggestions: seq<NameEntry>)
    requires HighlightInRange(s, |suggestions|)
    requires s.showAutocomplete && suggestions != [] && s.highlightedIndex >= 0
    ensures s.highlightedIndex < |suggestions|
    ensures KeyPressed(s, Enter, suggestions) == SuggestionSelected(s, suggestions[s.highlightedIndex].name)
  {
  }

  /** `k` presses of the same key. */
  function Presses(s: SearchState, key: Key, k: nat, suggestions: seq<NameEntry>): SearchState
    decreases k
  {
    if k == 0 then s else KeyPressed(Presses(s, key, k - 1, suggestions), key, suggestions)
  }

  /** From no highlight, `k` ArrowDowns highlight suggestion `k - 1`, and stop at the last one
      without wrapping round. */
  lemma {:induction false} ArrowDownClamps(s: SearchState, k: nat, suggestions: seq<NameEntry>)
    requires s.showAutocomplete && suggestions != [] && s.highlightedIndex == -1
    ensures Presses(s, ArrowDown, k, suggestions) == s.(highlightedIndex := Min(k - 1, |suggestions| - 1))
    decreases k
  {
    if k > 0 {
      ArrowDownClamps(s, k - 1, suggestions);
    }
  }

  /** From any highlight in range, `k` ArrowUps move it up `k` places and stop at -1. */
  lemma {:induction false} ArrowUpClamps(s: SearchState, k: nat, suggestions: seq<NameEntry>)
    requires s.showAutocomplete && suggestions != [] && -1 <= s.highlightedIndex < |suggestions|
    ensures Presses(s, ArrowUp, k, suggestions) == s.(highlightedIndex := Max(s.highlightedIndex - k, -1))
    decreases k
  {
    if k > 0 {
      ArrowUpClamps(s, k - 1, suggestions);
    }
  }

  /** Typing the values `vs`, one after the other. */
  function Writes(s: SearchState, vs: seq<string>): SearchState
    decreases |vs|
  {
    if vs == [] then s else QueryWritten(Writes(s, vs[..|vs| - 1]), vs[|vs| - 1])
  }

  /** A burst of typing leaves the last value in the box. Once any value typed differs from
      where the burst started, one timer is scheduled, for the last value; when none did,
      nothing changed at all. */
  lemma {:induction false} BurstSchedulesLast(s: SearchState, vs: seq<string>)
    requires TimerCarriesQuery(s)
    requires vs != []
    ensures Writes(s, vs).query == vs[|vs| - 1]
    ensures TimerCarriesQuery(Writes(s, vs))
    ensures vs[|vs| - 1] != s.query ==> Writes(s, vs).pending == Some(vs[|vs| - 1])
    ensures (exists i :: 0 <= i < |vs| && vs[i] != s.query) ==> Writes(s, vs).pending == Some(vs[|vs| - 1])
    ensures (forall i :: 0 <= i < |vs| ==> vs[i] == s.query) ==> Writes(s, vs) == s
    ensures StoreSyncedWhenIdle(s) ==> StoreSyncedWhenIdle(Writes(s, vs))
    decreases |vs|
  {
    var init := vs[..|vs| - 1];
    if init != [] {
      BurstSchedulesLast(s, init);
      if exists i :: 0 <= i < |vs| && vs[i] != s.query {
        if exists i :: 0 <= i < |init| && init[i] != s.query {
          assert Writes(s, init).pending == Some(Writes(s, init).query);
        } else {
          assert Writes(s, init) == s;
        }
      }
      if forall i :: 0 <= i < |vs| ==> vs[i] == s.query {
        assert forall i :: 0 <= i < |init| ==> init[i] == s.query by {
          forall i | 0 <= i < |init| ensures init[i] == s.query {
            assert init[i] == vs[i];
          }
        }
      }
    }
  }

  /** When the debounce timer fires after a burst of typing, the store holds the last value
      typed: whenever the burst changed the query, and whenever the store had caught up before
      it. When the burst changed the query, the suggestions are shown exactly when that value
      has two characters or more. */
  lemma BurstThenFire(s: SearchState, vs: seq<string>)
    requires TimerCarriesQuery(s)
    requires vs != []
    requires StoreSyncedWhenIdle(s) || vs[|vs| - 1] != s.query
    ensures TimerFired(Writes(s, vs)).storeQuery == vs[|vs| - 1]
    ensures (exists i :: 0 <= i < |vs| && vs[i] != s.query) ==>
              (TimerFired(Writes(s, vs)).showAutocomplete <==> |vs[|vs| - 1]| >= 2)
    ensures TimerFired(Writes(s, vs)).pending == None
  {
    BurstSchedulesLast(s, vs);
    if vs[|vs| - 1] != s.query {
      assert Writes(s, vs).pending == Some(vs[|vs| - 1]);
    }
  }

  /** The search box over the store: the query ref, the list flag, the highlight, the debounce
      timer (the value it will hand over) and the router's log. */
  class SearchController {
    var searchQuery: string
    var showAutocomplete: bool
    var highlightedIndex: int
    var debounceTimer: Option<string>
    var navigations: seq<string>
    const store: Store.PokemonStore

    function State(): SearchState
      reads this, store
    {
      SearchState(searchQuery, showAutocomplete, highlightedIndex, debounceTimer, store.searchQuery, navigations)
    }

    /** `usePokemonSearch()`: an empty query, no list, no highlight, no timer. */
    constructor(store: Store.PokemonStore)
      ensures this.store == store
      ensures State() == Initial(store.searchQuery)
    {
      searchQuery := [];
      showAutocomplete := false;
      highlightedIndex := -1;
      debounceTimer := None;
      navigations := [];
      this.store := store;
    }

    /** Assigning the query ref, as the input box does on each keystroke. */
    method SetQuery(v: string)
      modifies this
      ensures State() == QueryWritten(old(State()), v)
    {
      if v != searchQuery {
        debounceTimer := Some(v);
      }
      searchQuery := v;
    }

    method FireTimer()
      modifies this, store`searchQuery
      ensures State() == TimerFired(old(State()))
    {
      if debounceTimer.Some? {
        var v := debounceTimer.value;
        debounceTimer := None;
        store.SetSearchQuery(v);
        if |v| >= 2 {
          showAutocomplete := true;
          highlightedIndex := -1;
        } else {
          showAutocomplete := false;
        }
      }
    }

    method HandleSearch()
      modifies this, store`searchQuery
      ensures State() == SearchSubmitted(old(State()))
    {
      ghost var s0 := State();
      var query := Trim(searchQuery);
      if query != [] {
        showAutocomplete := false;
        navigations := navigations + [DetailRoute + Lower(query)];
        ghost var hidden := State();
        assert hidden == s0.(showAutocomplete := false, navigations := s0.navigations + [DetailRoute + Lower(query)]);
        SetQuery([]);
        ghost var written := State();
        store.SetSearchQuery([]);
        assert State() == written.(storeQuery := []);
      }
    }

    method HandleSelect(pokemon: NameEntry)
      modifies this, store`searchQuery
      ensures State() == SuggestionSelected(old(State()), pokemon.name)
    {
      showAutocomplete := false;
      SetQuery([]);
      store.SetSearchQuery([]);
      navigations := navigations + [DetailRoute + pokemon.name];
    }

    method HandleKeydown(key: Key)
      modifies this, store`searchQuery
      ensures State() == KeyPressed(old(State()), key, old(store.AutocompleteSuggestions()))
    {
      var suggestions := store.AutocompleteSuggestions();
      if !showAutocomplete || |suggestions| == 0 {
        if key == Enter {
          HandleSearch();
        }
        return;
      }
      match key
      case ArrowDown =>
        highlightedIndex := Min(highlightedIndex + 1, |suggestions| - 1);
      case ArrowUp =>
        highlightedIndex := Max(highlightedIndex - 1, -1);
      case Enter =>
        if highlightedIndex >= 0 {
          if highlightedIndex < |suggestions| {
            HandleSelect(suggestions[highlightedIndex]);
          } else {
            showAutocomplete := false;
            SetQuery([]);
            store.SetSearchQuery([]);
          }
        } else {
          HandleSearch();
        }
      case Escape =>
        showAutocomplete := false;
        highlightedIndex := -1;
      case OtherKey(_) =>
    }

    method CloseAutocomplete()
      modifies this
      ensures State() == AutocompleteClosed(old(State()))
    {
      showAutocomplete := false;
      highlightedIndex := -1;
    }
  }
}
