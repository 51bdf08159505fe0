/** The public events list: the search and type filter, and the values
    derived for each card (spots left, the scarcity badge, free access for
    members and the price shown). Fetching events is outside the model. */
module Events {
  import opened Text
  import opened Schema

  /** The columns of an event row the list reads; a null column is `None`.
      Prices are whole amounts. */
  datatype Event = Event(
    title: string,
    shortDescription: Option<string>,
    tags: Option<seq<string>>,
    isOnline: Option<bool>,
    capacity: Option<int>,
    spotsTaken: Option<int>,
    memberFreeAccess: Option<bool>,
    price: Option<int>)

  // ---------------------------------------------------------------------------
  // Filtering
  // ---------------------------------------------------------------------------

  /** Some tag contains the (lower-cased) query once lower-cased. */
  predicate SomeTagMatches(tags: seq<string>, query: string)
  {
    exists k :: 0 <= k < |tags| && Contains(ToLower(tags[k]), query)
  }

  /** The search part of the filter: the lower-cased query occurs in the
      lower-cased title, short description or one of the tags. */
  predicate MatchesSearch(e: Event, query: string)
  {
    var q := ToLower(query);
    || Contains(ToLower(e.title), q)
    || (e.shortDescription.Some? && Contains(ToLower(e.shortDescription.value), q))
    || (e.tags.Some? && SomeTagMatches(e.tags.value, q))
  }

  /** The type part: "online" keeps online events, any other type keeps
      those not marked online (a missing flag counts as not online). */
  predicate MatchesType(e: Event, typeFilter: string)
  {
    if typeFilter == "online" then e.isOnline == Some(true) else e.isOnline != Some(true)
  }

  /** The predicate of `filteredEvents`. */
  predicate Keeps(e: Event, query: string, typeFilter: string)
  {
    if query == "" && typeFilter == "all" then true
    else (query == "" || MatchesSearch(e, query)) && (typeFilter == "all" || MatchesType(e, typeFilter))
  }

  function FilterEvents(events: seq<Event>, query: string, typeFilter: string): (r: seq<Event>)
  {
    Filter(events, e => Keeps(e, query, typeFilter))
  }

  /** The list shown keeps the fetched order and holds exactly the events
      that pass the filter. */
  lemma FilterEventsSpec(events: seq<Event>, query: string, typeFilter: string)
    ensures IsSubsequence(FilterEvents(events, query, typeFilter), events)
    ensures forall e :: e in FilterEvents(events, query, typeFilter) <==> e in events && Keeps(e, query, typeFilter)
    ensures |FilterEvents(events, query, typeFilter)| == Count(events, e => Keeps(e, query, typeFilter))
  {
    FilterIsSubsequence(events, e => Keeps(e, query, typeFilter));
    CountIsFilterLength(events, e => Keeps(e, query, typeFilter));
    forall e
      ensures e in FilterEvents(events, query, typeFilter) <==> e in events && Keeps(e, query, typeFilter)
    {
      FilterMembership(events, e => Keeps(e, query, typeFilter), e);
    }
  }

  /** With no query and type "all" every event is listed. */
  lemma NoFilterKeepsAll(events: seq<Event>)
    ensures FilterEvents(events, "", "all") == events
  {
    FilterKeepsAll(events, e => Keeps(e, "", "all"));
  }

  /** Lower-casing is idempotent. */
  lemma ToLowerIdempotent(s: string)
    ensures ToLower(ToLower(s)) == ToLower(s)
  {
  }

  /** The search is case-insensitive: a query and its lower-cased form keep
      the same events. */
  lemma SearchIgnoresCase(e: Event, query: string, typeFilter: string)
    ensures Keeps(e, query, typeFilter) <==> Keeps(e, ToLower(query), typeFilter)
  {
    ToLowerIdempotent(query);
  }

  /** A title containing the query, in any case, is always found. */
  lemma TitleHitsKept(e: Event, query: string)
    requires Contains(ToLower(e.title), ToLower(query))
    ensures Keeps(e, query, "all")
  {
  }

  /** With no query, type "online" keeps exactly the online events, and any
      other type other than "all" keeps exactly the rest. */
  lemma TypeFilterSplits(e: Event, typeFilter: string)
    requires typeFilter != "all"
    ensures Keeps(e, "", "online") <==> e.isOnline == Some(true)
    ensures typeFilter != "online" ==> (Keeps(e, "", typeFilter) <==> !Keeps(e, "", "online"))
  {
  }

  // ---------------------------------------------------------------------------
  // Card values
  // ---------------------------------------------------------------------------

  /** Capacity less the spots taken (missing counts as 0); unknown when the
      capacity is missing or 0. */
  function SpotsLeft(e: Event): (r: Option<int>)
    ensures r.None? <==> e.capacity.None? || e.capacity.value == 0
    ensures r.Some? ==> r.value == e.capacity.value - (if e.spotsTaken.Some? then e.spotsTaken.value else 0)
  {
    if e.capacity.Some? && e.capacity.value != 0 then
      Some(e.capacity.value - (if e.spotsTaken.Some? then e.spotsTaken.value else 0))
    else None
  }

  /** The "spots left" badge. */
  predicate ScarcityBadge(e: Event)
  {
    var left := SpotsLeft(e);
    left.Some? && left.value <= 10
  }

  /** The badge shows exactly when the capacity is known and at most ten
      spots remain, an overbooked event included. */
  lemma ScarcityBadgeIff(e: Event)
    ensures ScarcityBadge(e) <==>
      e.capacity.Some? && e.capacity.value != 0
      && e.capacity.value - (if e.spotsTaken.Some? then e.spotsTaken.value else 0) <= 10
  {
  }

  /** `event.member_free_access && isTransformationMember`. */
  function FreeForMember(e: Event, tier: Option<Tier>): (free: bool)
    ensures free <==> e.memberFreeAccess == Some(true) && tier == Some(Transformation)
  {
    e.memberFreeAccess == Some(true) && tier == Some(Transformation)
  }

  datatype PriceShown = Free | Amount(price: Option<int>)

  /** The price line: "Free" for a zero price or a member's free access,
      otherwise the price. */
  function PriceLabel(e: Event, tier: Option<Tier>): (shown: PriceShown)
    ensures shown == Free <==> e.price == Some(0) || FreeForMember(e, tier)
    ensures shown.Amount? ==> shown.price == e.price
  {
    if e.price == Some(0) || FreeForMember(e, tier) then Free else Amount(e.price)
  }

  /** Only a transformation member sees a priced event as free, and only
      when the event grants member access. */
  lemma FreeOnlyForTransformation(e: Event, tier: Option<Tier>)
    requires e.price != Some(0)
    ensures PriceLabel(e, tier) == Free <==> tier == Some(Transformation) && e.memberFreeAccess == Some(true)
  {
  }
}
