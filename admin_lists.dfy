/** The admin list pages: membership leads (search, status filter, counts
    and the WhatsApp link), users (search and tier filter) and events
    (title search and the totals above the list). Each page works on a list
    it is given. */
module AdminLists {
  import opened Text
  import opened Schema

  // ---------------------------------------------------------------------------
  // Leads
  // ---------------------------------------------------------------------------

  /** A lead as listed; its status is kept as text. */
  datatype Lead = Lead(fullName: string, whatsapp: string, status: string)

  /** The name matches the query ignoring letter case; the number must
      contain the query exactly as typed. */
  predicate LeadMatches(l: Lead, query: string, status: Option<string>)
  {
    (Contains(ToLower(l.fullName), ToLower(query)) || Contains(l.whatsapp, query))
    && (status.None? || status.value == "" || l.status == status.value)
  }

  function FilterLeads(leads: seq<Lead>, query: string, status: Option<string>): (r: seq<Lead>)
  {
    Filter(leads, l => LeadMatches(l, query, status))
  }

  /** The listed leads keep their order and are exactly those that match. */
  lemma FilterLeadsSpec(leads: seq<Lead>, query: string, status: Option<string>)
    ensures IsSubsequence(FilterLeads(leads, query, status), leads)
    ensures forall l :: l in FilterLeads(leads, query, status) <==> l in leads && LeadMatches(l, query, status)
    ensures |FilterLeads(leads, query, status)| == Count(leads, l => LeadMatches(l, query, status))
  {
    FilterIsSubsequence(leads, l => LeadMatches(l, query, status));
    CountIsFilterLength(leads, l => LeadMatches(l, query, status));
    forall l
      ensures l in FilterLeads(leads, query, status) <==> l in leads && LeadMatches(l, query, status)
    {
      FilterMembership(leads, l => LeadMatches(l, query, status), l);
    }
  }

  /** An empty query with no status selected lists every lead. */
  lemma NoQueryKeepsAllLeads(leads: seq<Lead>)
    ensures FilterLeads(leads, "", None) == leads
  {
    forall k | 0 <= k < |leads|
      ensures LeadMatches(leads[k], "", None)
    {
      EmptyContained(ToLower(leads[k].fullName));
    }
    FilterKeepsAll(leads, l => LeadMatches(l, "", None));
  }

  /** The number search is case-sensitive and does not ignore spacing: a
      stored "+1 555" is not found by the query "+1555". */
  lemma NumberSearchIsLiteral()
    ensures !LeadMatches(Lead("Ana", "+1 555", "new"), "+1555", None)
  {
    assert !Contains("+1 555", "+1555") by {
      forall i | 0 <= i <= |"+1 555"| - |"+1555"|
        ensures !StartsWith("+1 555"[i..], "+1555")
      {
        if i == 0 {
          assert "+1 555"[i..][2] == ' ' != "+1555"[2];
        } else {
          assert "+1 555"[i..][0] == '1' != "+1555"[0];
        }
      }
    }
    assert !Contains(ToLower("Ana"), ToLower("+1555")) by {
      assert |ToLower("Ana")| < |ToLower("+1555")|;
    }
  }

  /** The counts above the list, over all leads. */
  datatype LeadCounts = LeadCounts(total: nat, newLeads: nat, contacted: nat, converted: nat, declined: nat)

  function StatusCount(leads: seq<Lead>, s: LeadStatus): (n: nat)
    ensures n <= |leads|
  {
    Count(leads, (l: Lead) => l.status == LeadStatusName(s))
  }

  function Counts(leads: seq<Lead>): (c: LeadCounts)
    ensures c.total == |leads|
  {
    LeadCounts(|leads|, StatusCount(leads, New), StatusCount(leads, Contacted),
               StatusCount(leads, Converted), StatusCount(leads, Declined))
  }

  predicate KnownStatus(l: Lead)
  {
    l.status in {"new", "contacted", "converted", "declined"}
  }

  /** When every lead has one of the four statuses, the four counts add up
      to all of them. */
  lemma {:induction false} CountsAddUp(leads: seq<Lead>)
    requires forall k :: 0 <= k < |leads| ==> KnownStatus(leads[k])
    ensures var c := Counts(leads);
      c.newLeads + c.contacted + c.converted + c.declined == c.total
  {
    if leads != [] {
      assert KnownStatus(leads[0]);
      CountsAddUp(leads[1..]);
    }
  }

  /** `number.replace(/\D/g, "")`: the digits of the number, in order. */
  function DigitsOnly(number: string): (digits: string)
  {
    Filter(number, (c: char) => '0' <= c <= '9')
  }

  /** The WhatsApp link keeps exactly the digits of the stored number, in
      their order, and nothing else. */
  lemma DigitsOnlySpec(number: string)
    ensures IsSubsequence(DigitsOnly(number), number)
    ensures forall k :: 0 <= k < |DigitsOnly(number)| ==> '0' <= DigitsOnly(number)[k] <= '9'
    ensures forall c :: '0' <= c <= '9' ==> (c in DigitsOnly(number) <==> c in number)
    ensures |DigitsOnly(number)| == Count(number, (c: char) => '0' <= c <= '9')
  {
    FilterIsSubsequence(number, (c: char) => '0' <= c <= '9');
    CountIsFilterLength(number, (c: char) => '0' <= c <= '9');
    forall c | '0' <= c <= '9'
      ensures c in DigitsOnly(number) <==> c in number
    {
      FilterMembership(number, (c: char) => '0' <= c <= '9', c);
    }
  }

  /** A number written only with digits links as written. */
  lemma DigitsUnchanged(number: string)
    requires forall k :: 0 <= k < |number| ==> '0' <= number[k] <= '9'
    ensures DigitsOnly(number) == number
  {
    FilterKeepsAll(number, (c: char) => '0' <= c <= '9');
  }

  // ---------------------------------------------------------------------------
  // Users
  // ---------------------------------------------------------------------------

  datatype User = User(nickname: string, email: string, tier: string)

  predicate UserMatchesSearch(u: User, query: string)
  {
    Contains(ToLower(u.nickname), ToLower(query)) || Contains(ToLower(u.email), ToLower(query))
  }

  predicate UserMatchesTier(u: User, tier: Option<string>)
  {
    tier.None? || tier.value == "" || u.tier == tier.value
  }

  predicate UserMatches(u: User, query: string, tier: Option<string>)
  {
    UserMatchesSearch(u, query) && UserMatchesTier(u, tier)
  }

  function FilterUsers(users: seq<User>, query: string, tier: Option<string>): (r: seq<User>)
  {
    Filter(users, u => UserMatches(u, query, tier))
  }

  /** The listed users keep their order; the combined filter is the search
      filter followed by the tier filter; an empty query with no tier lists
      everyone. */
  lemma FilterUsersSpec(users: seq<User>, query: string, tier: Option<string>)
    ensures IsSubsequence(FilterUsers(users, query, tier), users)
    ensures FilterUsers(users, query, tier)
      == Filter(Filter(users, u => UserMatchesSearch(u, query)), u => UserMatchesTier(u, tier))
    ensures query == "" && tier.None? ==> FilterUsers(users, query, tier) == users
    ensures |FilterUsers(users, query, tier)| == Count(users, u => UserMatches(u, query, tier))
  {
    FilterIsSubsequence(users, u => UserMatches(u, query, tier));
    CountIsFilterLength(users, u => UserMatches(u, query, tier));
    FilterConjunction(users, u => UserMatchesSearch(u, query), u => UserMatchesTier(u, tier),
                      u => UserMatches(u, query, tier));
    if query == "" && tier.None? {
      forall k | 0 <= k < |users|
        ensures UserMatches(users[k], query, tier)
      {
        EmptyContained(ToLower(users[k].nickname));
      }
      FilterKeepsAll(users, u => UserMatches(u, query, tier));
    }
  }

  /** A selected tier lists only users of that tier. */
  lemma TierFilterExact(users: seq<User>, query: string, t: Tier)
    ensures forall u :: u in FilterUsers(users, query, Some(TierName(t))) ==> u.tier == TierName(t)
  {
    forall u | u in FilterUsers(users, query, Some(TierName(t)))
      ensures u.tier == TierName(t)
    {
      FilterMembership(users, u => UserMatches(u, query, Some(TierName(t))), u);
    }
  }

  // ---------------------------------------------------------------------------
  // Events
  // ---------------------------------------------------------------------------

  datatype ListedEvent = ListedEvent(title: string, booked: nat, price: nat, status: string, memberFree: bool)

  function FilterByTitle(events: seq<ListedEvent>, query: string): (r: seq<ListedEvent>)
  {
    Filter(events, (e: ListedEvent) => Contains(ToLower(e.title), ToLower(query)))
  }

  /** The title search keeps the order, and an empty query keeps all. */
  lemma FilterByTitleSpec(events: seq<ListedEvent>, query: string)
    ensures IsSubsequence(FilterByTitle(events, query), events)
    ensures query == "" ==> FilterByTitle(events, query) == events
    ensures |FilterByTitle(events, query)| == Count(events, (e: ListedEvent) => Contains(ToLower(e.title), ToLower(query)))
  {
    FilterIsSubsequence(events, (e: ListedEvent) => Contains(ToLower(e.title), ToLower(query)));
    CountIsFilterLength(events, (e: ListedEvent) => Contains(ToLower(e.title), ToLower(query)));
    if query == "" {
      forall k | 0 <= k < |events|
        ensures Contains(ToLower(events[k].title), ToLower(query))
      {
        EmptyContained(ToLower(events[k].title));
      }
      FilterKeepsAll(events, (e: ListedEvent) => Contains(ToLower(e.title), ToLower(query)));
    }
  }

  /** The "Published" figure, over all events whatever the search. */
  function PublishedCount(events: seq<ListedEvent>): (n: nat)
    ensures n <= |events|
  {
    Count(events, (e: ListedEvent) => e.status == "published")
  }

  /** `reduce((sum, e) => sum + e.booked, 0)`. */
  function TotalBookings(events: seq<ListedEvent>): (n: nat)
  {
    if events == [] then 0 else events[0].booked + TotalBookings(events[1..])
  }

  /** `reduce((sum, e) => sum + e.booked * e.price, 0)`. */
  function Revenue(events: seq<ListedEvent>): (n: nat)
  {
    if events == [] then 0 else events[0].booked * events[0].price + Revenue(events[1..])
  }

  /** Sums over a list split in two add up. */
  lemma {:induction false} TotalsSplit(a: seq<ListedEvent>, b: seq<ListedEvent>)
    ensures TotalBookings(a + b) == TotalBookings(a) + TotalBookings(b)
    ensures Revenue(a + b) == Revenue(a) + Revenue(b)
  {
    if a != [] {
      assert (a + b)[1..] == a[1..] + b;
      TotalsSplit(a[1..], b);
    } else {
      assert a + b == b;
    }
  }

  /** Free events bring in nothing: revenue only counts priced events, and
      it is at most the bookings times the highest price. */
  lemma {:induction false} RevenueBounds(events: seq<ListedEvent>, maxPrice: nat)
    requires forall k :: 0 <= k < |events| ==> events[k].price <= maxPrice
    ensures Revenue(events) <= TotalBookings(events) * maxPrice
    ensures (forall k :: 0 <= k < |events| ==> events[k].price == 0) ==> Revenue(events) == 0
  {
    if events != [] {
      RevenueBounds(events[1..], maxPrice);
      MulMono(events[0].booked, events[0].price, maxPrice);
      assert TotalBookings(events) * maxPrice
        == events[0].booked * maxPrice + TotalBookings(events[1..]) * maxPrice;
    }
  }
}
