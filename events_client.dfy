/** The state of the events listing component
    (src/components/EventsClient.tsx) and the handlers that change it: the
    plan effect, the filter updates, the tier tabs and the fetch. */
module EventsClient {
  import opened Wrappers
  import opened EventTypes
  import opened TierPolicy
  import opened EventFilters

  /** The properties of an `EventFilters` object. */
  datatype FilterKey = Search | Category | Location | TierKey | DateFrom | DateTo

  /** An `EventFilters` object: a key that is absent is a property that was
      never set; `Some(None)` is a property set to `undefined`. Object spread
      `{ ...a, ...b }` is the map union `a + b`. */
  type Filters = map<FilterKey, Option<string>>

  /** Reading a property: absent and `undefined` read the same. */
  function FilterValue(f: Filters, k: FilterKey): Option<string>
  {
    if k in f then f[k] else None
  }

  const FETCH_FAILED: string := "Failed to fetch events. Please try again."
  const UNEXPECTED_ERROR: string := "An unexpected error occurred. Please try again."

  /** What the awaited `getAllEvents()` produced: the `{ data, error }` pair
      it returned, or an exception. */
  datatype FetchOutcome = Returned(data: Option<seq<Event>>, fetchError: Option<string>) | Threw

  class EventsClientState {
    var events: seq<Event>
    var loading: bool
    var error: Option<string>
    var filters: Filters
    var selectedTier: string
    var plan: string

    /** The tier filter mirrors the selected tab: undefined exactly when the
        tab is "all", the tab's name otherwise. */
    ghost predicate TierFilterInSync()
      reads this
    {
      FilterValue(filters, TierKey) == if selectedTier == "all" then None else Some(selectedTier)
    }

    /** The listing the component renders: events of the selected tier,
        unless it is "all", that match the search text. */
    function Listing(): (r: seq<Event>)
      reads this
      ensures forall e :: e in r ==> e in events && (selectedTier != "all" ==> TierName(e.tier) == selectedTier)
    {
      FilteredEvents(events, selectedTier, FilterValue(filters, Search))
    }

    /** The `canAccess` flag an event's card receives: the plan is a tier no
        earlier than the event's in the tier order. */
    predicate CanAccess(e: Event)
      reads this
      ensures CanAccess(e) <==> ParseTier(plan).Some? && OrderIndex(ParseTier(plan).value) >= OrderIndex(e.tier)
    {
      DoesPlanCoverTier(plan, TierName(e.tier))
    }

    /** The initial state of the component. */
    constructor ()
      ensures events == [] && loading && error == None && filters == map[]
      ensures selectedTier == "all" && plan == "free"
      ensures TierFilterInSync()
    {
      events := [];
      loading := true;
      error := None;
      filters := map[];
      selectedTier := "all";
      plan := "free";
    }

    /** The plan effect: when the membership predicate is available, ask it
        about platinum, then silver, then gold, else free; otherwise keep the
        plan. */
    method ApplyPlan(has: Option<string -> bool>)
      modifies this`plan
      ensures plan == if has.Some? then DerivedPlan(has.value) else old(plan)
    {
      if has.Some? {
        var holds := has.value;
        assert PLAN_PRIORITY[1..] == ["silver", "gold"];
        assert PLAN_PRIORITY[1..][1..] == ["gold"];
        assert PLAN_PRIORITY[1..][1..][1..] == [];
        if holds("platinum") {
          plan := "platinum";
        } else if holds("silver") {
          plan := "silver";
        } else if holds("gold") {
          plan := "gold";
        } else {
          plan := "free";
        }
      }
    }

    /** `updateFilters`: the new properties override, the others are kept. */
    method UpdateFilters(newFilters: Filters)
      modifies this`filters
      ensures filters == old(filters) + newFilters
      ensures forall k :: FilterValue(filters, k) == if k in newFilters then newFilters[k] else FilterValue(old(filters), k)
    {
      filters := filters + newFilters;
    }

    /** `handleSearchChange`: set the search text and nothing else. */
    method HandleSearchChange(searchValue: string)
      modifies this`filters
      ensures filters == old(filters)[Search := Some(searchValue)]
      ensures forall k :: k != Search ==> FilterValue(filters, k) == FilterValue(old(filters), k)
      ensures old(TierFilterInSync()) ==> TierFilterInSync()
    {
      filters := filters[Search := Some(searchValue)];
    }

    /** `handleTierChange`: select the tab and its tier filter when the tab
        is "all" or the plan covers it; otherwise show the upgrade notice and
        fall back to "all". Neither the events nor the plan change. */
    method HandleTierChange(tier: string) returns (noticeShown: bool)
      modifies this`selectedTier, this`filters
      ensures noticeShown <==> !(tier == "all" || DoesPlanCoverTier(plan, tier))
      ensures selectedTier == if noticeShown then "all" else tier
      ensures filters == old(filters)[TierKey := if selectedTier == "all" then None else Some(selectedTier)]
      ensures selectedTier == "all" || DoesPlanCoverTier(plan, selectedTier)
      ensures selectedTier != "all" ==> forall e :: e in Listing() ==> CanAccess(e)
      ensures TierFilterInSync()
    {
      selectedTier := tier;
      var tierFilter := if tier == "all" then None else Some(tier);
      if DoesPlanCoverTier(plan, tier) || tier == "all" {
        UpdateFilters(map[TierKey := tierFilter]);
        noticeShown := false;
      } else {
        noticeShown := true;
        selectedTier := "all";
        UpdateFilters(map[TierKey := None]);
      }
    }

    /** The start of `fetchEvents`, before it awaits the service. */
    method StartFetch()
      modifies this`loading, this`error
      ensures loading && error == None
    {
      loading := true;
      error := None;
    }

    /** The end of `fetchEvents`, once the service has answered. */
    method FinishFetch(outcome: FetchOutcome)
      modifies this`events, this`error, this`loading
      ensures !loading
      ensures outcome.Returned? && outcome.fetchError.None? ==>
        events == (if outcome.data.Some? then outcome.data.value else []) && error == old(error)
      ensures outcome.Returned? && outcome.fetchError.Some? ==>
        events == old(events) && error == Some(FETCH_FAILED)
      ensures outcome.Threw? ==> events == old(events) && error == Some(UNEXPECTED_ERROR)
    {
      match outcome {
        case Returned(data, fetchError) =>
          if fetchError.Some? {
            error := Some(FETCH_FAILED);
          } else {
            events := if data.Some? then data.value else [];
          }
        case Threw =>
          error := Some(UNEXPECTED_ERROR);
      }
      loading := false;
    }

    /** `fetchEvents` run to completion: loading ends, and either the events
        are replaced and no error is shown, or an error is shown and the
        events are kept. */
    method FetchEvents(outcome: FetchOutcome)
      modifies this`events, this`error, this`loading
      ensures !loading
      ensures outcome.Returned? && outcome.fetchError.None? ==>
        events == (if outcome.data.Some? then outcome.data.value else []) && error == None
      ensures outcome.Returned? && outcome.fetchError.Some? ==>
        events == old(events) && error == Some(FETCH_FAILED)
      ensures outcome.Threw? ==> events == old(events) && error == Some(UNEXPECTED_ERROR)
    {
      StartFetch();
      FinishFetch(outcome);
    }
  }
}
