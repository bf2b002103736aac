/** The pure listings of src/components/EventsClient.tsx: the search filter,
    the tier-and-search filter and the tier tab counts. */
module EventFilters {
  import opened Wrappers
  import opened EventTypes

  /** Lower-casing of one character, restricted to ASCII letters. */
  function ToLowerChar(c: char): char
  {
    if 'A' <= c <= 'Z' then (c as int + 32) as char else c
  }

  /** `s.toLowerCase()`, on ASCII letters. */
  function ToLower(s: string): string
  {
    seq(|s|, i requires 0 <= i < |s| => ToLowerChar(s[i]))
  }

  /** `term` occurs in `s` starting at position `i`. */
  predicate OccursAt(s: string, term: string, i: int)
  {
    0 <= i && i + |term| <= |s| && s[i..i + |term|] == term
  }

  /** `s.includes(term)`: `term` occurs in `s` at some position. */
  predicate Includes(s: string, term: string)
  {
    exists i :: 0 <= i <= |s| - |term| && OccursAt(s, term, i)
  }

  /** `field && field.toLowerCase().includes(term)` for an optional field: a
      missing, null or empty field does not match. */
  predicate FieldMatches(field: Option<string>, term: string)
  {
    field.Some? && field.value != "" && Includes(ToLower(field.value), term)
  }

  /** The search callback: the lower-cased term occurs in the lower-cased
      title, description, location or category. */
  predicate MatchesSearch(e: Event, term: string)
  {
    || Includes(ToLower(e.title), term)
    || FieldMatches(e.description, term)
    || FieldMatches(e.location, term)
    || FieldMatches(e.category, term)
  }

  /** The two callbacks the listing passes to `filter`. */
  datatype Criterion = TierIs(name: string) | SearchFor(term: string)

  predicate Satisfies(e: Event, c: Criterion)
  {
    match c
    case TierIs(name) => TierName(e.tier) == name
    case SearchFor(term) => MatchesSearch(e, term)
  }

  /** `events.filter(...)` with one of the callbacks. */
  function FilterBy(events: seq<Event>, c: Criterion): seq<Event>
  {
    if events == [] then []
    else (if Satisfies(events[0], c) then [events[0]] else []) + FilterBy(events[1..], c)
  }

  /** `r` is `s` with some elements left out and the order kept. */
  predicate IsSubsequence(r: seq<Event>, s: seq<Event>)
    decreases |s|
  {
    if r == [] then true
    else if s == [] then false
    else if r[0] == s[0] then IsSubsequence(r[1..], s[1..])
    else IsSubsequence(r, s[1..])
  }

  /** Every element the filter keeps passes the callback. */
  lemma {:induction false} FilterByKeepsPassing(events: seq<Event>, c: Criterion)
    ensures forall e :: e in FilterBy(events, c) ==> e in events && Satisfies(e, c)
  {
    if events != [] {
      FilterByKeepsPassing(events[1..], c);
    }
  }

  /** The filter keeps every element that passes, as often as it occurs, and
      drops every element that fails. */
  lemma {:induction false} FilterByCounts(events: seq<Event>, c: Criterion)
    ensures forall e :: multiset(FilterBy(events, c))[e] == if Satisfies(e, c) then multiset(events)[e] else 0
  {
    if events != [] {
      var h, t := events[0], events[1..];
      FilterByCounts(t, c);
      assert events == [h] + t;
      assert multiset(events) == multiset([h]) + multiset(t);
      var hs := if Satisfies(h, c) then [h] else [];
      assert multiset(FilterBy(events, c)) == multiset(hs) + multiset(FilterBy(t, c));
    }
  }

  /** The filter keeps the order of the elements it keeps. */
  lemma {:induction false} FilterByIsSubsequence(events: seq<Event>, c: Criterion)
    ensures IsSubsequence(FilterBy(events, c), events)
  {
    if events != [] {
      var h, t := events[0], events[1..];
      var r, r' := FilterBy(events, c), FilterBy(t, c);
      FilterByIsSubsequence(t, c);
      if Satisfies(h, c) {
        assert r == [h] + r';
        assert r[1..] == r';
      } else {
        assert r == r';
        if r' != [] {
          FilterByKeepsPassing(t, c);
          assert r'[0] in r';
        }
      }
    }
  }

  lemma {:induction false} FilterByConcat(a: seq<Event>, b: seq<Event>, c: Criterion)
    ensures FilterBy(a + b, c) == FilterBy(a, c) + FilterBy(b, c)
  {
    if a != [] {
      var h := a[0];
      var hs := if Satisfies(h, c) then [h] else [];
      assert (a + b)[0] == h;
      assert (a + b)[1..] == a[1..] + b;
      assert FilterBy(a + b, c) == hs + FilterBy(a[1..] + b, c);
      FilterByConcat(a[1..], b, c);
      assert FilterBy(a, c) == hs + FilterBy(a[1..], c);
    } else {
      assert a + b == b;
    }
  }

  /** Filtering by two callbacks gives the same list in either order. */
  lemma {:induction false} FilterByCommutes(events: seq<Event>, c1: Criterion, c2: Criterion)
    ensures FilterBy(FilterBy(events, c1), c2) == FilterBy(FilterBy(events, c2), c1)
  {
    if events != [] {
      var h, t := events[0], events[1..];
      var h1 := if Satisfies(h, c1) then [h] else [];
      var h2 := if Satisfies(h, c2) then [h] else [];
      FilterByConcat(h1, FilterBy(t, c1), c2);
      FilterByConcat(h2, FilterBy(t, c2), c1);
      FilterByCommutes(t, c1, c2);
      assert FilterBy(h1, c2) == FilterBy(h2, c1);
    }
  }

  /** Every sequence is a subsequence of itself. */
  lemma {:induction false} SubsequenceReflexive(s: seq<Event>)
    ensures IsSubsequence(s, s)
    decreases |s|
  {
    if s != [] {
      SubsequenceReflexive(s[1..]);
    }
  }

  /** `searchFilteredEvents`: the events in their order, narrowed to those
      that match the lower-cased search text when there is one. */
  function SearchFilteredEvents(events: seq<Event>, search: Option<string>): (r: seq<Event>)
    ensures IsSubsequence(r, events)
    ensures forall e :: e in r ==>
      e in events && (search.Some? && search.value != "" ==> MatchesSearch(e, ToLower(search.value)))
  {
    if search.None? || search.value == "" then
      SubsequenceReflexive(events);
      events
    else
      var c := SearchFor(ToLower(search.value));
      FilterByIsSubsequence(events, c);
      FilterByKeepsPassing(events, c);
      FilterBy(events, c)
  }

  /** With no search text the events are shown as they are; otherwise the
      result keeps the order of the events, keeps each event that matches
      the lower-cased text, as often as it occurs, and drops each one that
      matches in no field. */
  lemma SearchFilteredSpec(events: seq<Event>, search: Option<string>)
    ensures search.None? || search.value == "" ==> SearchFilteredEvents(events, search) == events
    ensures search.Some? && search.value != "" ==>
      var r, term := SearchFilteredEvents(events, search), ToLower(search.value);
      && IsSubsequence(r, events)
      && (forall e :: e in r ==> MatchesSearch(e, term))
      && (forall e :: multiset(r)[e] == if MatchesSearch(e, term) then multiset(events)[e] else 0)
  {
    if search.Some? && search.value != "" {
      var c := SearchFor(ToLower(search.value));
      FilterByKeepsPassing(events, c);
      FilterByCounts(events, c);
      FilterByIsSubsequence(events, c);
    }
  }

  /** `filteredEvents`: first by the selected tier unless it is "all", then by
      the search text when there is one. */
  function FilteredEvents(events: seq<Event>, selectedTier: string, search: Option<string>): (r: seq<Event>)
    ensures forall e :: e in r ==>
      && e in events
      && (selectedTier != "all" ==> TierName(e.tier) == selectedTier)
      && (search.Some? && search.value != "" ==> MatchesSearch(e, ToLower(search.value)))
  {
    FilterByKeepsPassing(events, TierIs(selectedTier));
    var byTier := if selectedTier != "all" then FilterBy(events, TierIs(selectedTier)) else events;
    FilterByKeepsPassing(byTier, SearchFor(ToLower(search.GetOr(""))));
    if search.Some? && search.value != "" then FilterBy(byTier, SearchFor(ToLower(search.value)))
    else byTier
  }

  /** The listing is the search result, narrowed to the selected tier unless
      it is "all": the tier and search filters commute. */
  lemma FilteredEventsCommute(events: seq<Event>, selectedTier: string, search: Option<string>)
    ensures FilteredEvents(events, selectedTier, search)
         == if selectedTier == "all" then SearchFilteredEvents(events, search)
            else FilterBy(SearchFilteredEvents(events, search), TierIs(selectedTier))
  {
    if selectedTier != "all" && search.Some? && search.value != "" {
      FilterByCommutes(events, TierIs(selectedTier), SearchFor(ToLower(search.value)));
    }
  }

  /** One tier tab: the tab id, its label and its count. */
  datatype TierTab = TierTab(id: string, caption: string, count: nat)

  /** `tierTabs` over the search result: the "All" tab counts every event,
      and each of the four tier tabs counts, at most as many, the events of
      its tier. */
  function TierTabs(searchFiltered: seq<Event>): (tabs: seq<TierTab>)
    ensures |tabs| == 5 && tabs[0].id == "all" && tabs[0].count == |searchFiltered|
    ensures forall i :: 1 <= i < 5 ==>
      && ParseTier(tabs[i].id).Some?
      && tabs[i].count == |FilterBy(searchFiltered, TierIs(tabs[i].id))|
      && tabs[i].count <= tabs[0].count
  {
    TierCountsPartition(searchFiltered);
    [ TierTab("all", "All", |searchFiltered|),
      TierTab("free", "Free", |FilterBy(searchFiltered, TierIs("free"))|),
      TierTab("silver", "Silver", |FilterBy(searchFiltered, TierIs("silver"))|),
      TierTab("gold", "Gold", |FilterBy(searchFiltered, TierIs("gold"))|),
      TierTab("platinum", "Platinum", |FilterBy(searchFiltered, TierIs("platinum"))|) ]
  }

  /** Every event has exactly one of the four tiers. */
  lemma {:induction false} TierCountsPartition(events: seq<Event>)
    ensures |events| == |FilterBy(events, TierIs("free"))| + |FilterBy(events, TierIs("silver"))|
                      + |FilterBy(events, TierIs("gold"))| + |FilterBy(events, TierIs("platinum"))|
  {
    if events != [] {
      TierCountsPartition(events[1..]);
    }
  }

  /** The "All" tab counts the sum of the four tier tabs. */
  lemma AllTabIsSum(searchFiltered: seq<Event>)
    ensures var tabs := TierTabs(searchFiltered);
      tabs[0].count == tabs[1].count + tabs[2].count + tabs[3].count + tabs[4].count
  {
    TierCountsPartition(searchFiltered);
  }

  /** Each tab's count is the length of the listing shown when that tab is
      the selected tier, under the same search text. */
  lemma TabCountIsListingLength(events: seq<Event>, search: Option<string>, i: nat)
    requires i < 5
    ensures var tab := TierTabs(SearchFilteredEvents(events, search))[i];
      tab.count == |FilteredEvents(events, tab.id, search)|
  {
    var tabs := TierTabs(SearchFilteredEvents(events, search));
    var id := ["all", "free", "silver", "gold", "platinum"][i];
    assert tabs[i].id == id;
    FilteredEventsCommute(events, id, search);
  }
}
