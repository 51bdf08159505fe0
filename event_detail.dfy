/** The event page: availability, the price for members, the booking and
    membership-lead handlers, and how the description text is laid out line
    by line. The inserts are inputs (whether the backend is configured and
    whether the insert succeeds); navigation and toasts are outside the
    model. */
module EventDetail {
  import opened Text
  import opened Schema

  /** The event the page shows. All its columns are present. */
  datatype ShownEvent = ShownEvent(id: string, capacity: int, spotsTaken: int, price: int, memberFreeAccess: bool, description: string)

  function SpotsLeft(e: ShownEvent): (left: int)
    ensures left + e.spotsTaken == e.capacity
  {
    e.capacity - e.spotsTaken
  }

  /** Booking controls are offered only while spots remain; otherwise the
      page says the event is sold out. */
  predicate BookingOpen(e: ShownEvent)
  {
    SpotsLeft(e) > 0
  }

  lemma BookingOpenIff(e: ShownEvent)
    ensures BookingOpen(e) <==> e.spotsTaken < e.capacity
  {
  }

  function FreeForMember(e: ShownEvent, tier: Option<Tier>): (free: bool)
    ensures free <==> e.memberFreeAccess && tier == Some(Transformation)
  {
    e.memberFreeAccess && tier == Some(Transformation)
  }

  /** The page ignores the route id and always shows one built-in event:
      id "1", 50 places of which 38 are taken, price 49, no free member
      access. Its description text is not fixed here. */
  predicate IsBuiltInEvent(e: ShownEvent)
  {
    e.id == "1" && e.capacity == 50 && e.spotsTaken == 38 && e.price == 49 && !e.memberFreeAccess
  }

  /** On the built-in event booking is open with 12 places left, no member
      ever books for free, and every booking is a pending row for event "1"
      at the full price. */
  lemma BuiltInEventBookings(e: ShownEvent, userId: string, tier: Option<Tier>)
    requires IsBuiltInEvent(e)
    ensures SpotsLeft(e) == 12 && BookingOpen(e)
    ensures !FreeForMember(e, tier)
    ensures BookingFor(e, userId, tier) == BookingRow("1", userId, "pending", 49, false)
  {
  }

  // ---------------------------------------------------------------------------
  // Booking
  // ---------------------------------------------------------------------------

  /** The `event_bookings` row a booking inserts. */
  datatype BookingRow = BookingRow(eventId: string, userId: string, status: string, amountPaid: int, isMemberAccess: bool)

  function BookingFor(e: ShownEvent, userId: string, tier: Option<Tier>): (row: BookingRow)
    ensures row.eventId == e.id && row.userId == userId && row.status == "pending"
    ensures row.isMemberAccess <==> FreeForMember(e, tier)
    ensures row.amountPaid == (if row.isMemberAccess then 0 else e.price)
  {
    var free := FreeForMember(e, tier);
    BookingRow(e.id, userId, "pending", if free then 0 else e.price, free)
  }

  /** A booking is always pending; only a transformation member on an event
      that grants member access books for nothing, everyone else is charged
      the price. */
  lemma BookingCharges(e: ShownEvent, userId: string, tier: Option<Tier>)
    ensures BookingFor(e, userId, tier).status == "pending"
    ensures tier != Some(Transformation) || !e.memberFreeAccess ==>
      BookingFor(e, userId, tier).amountPaid == e.price && !BookingFor(e, userId, tier).isMemberAccess
  {
  }

  datatype BookingOutcome = SignInRequired | BookingFailed | Booked

  /** The `membership_leads` row a lead inserts. */
  datatype LeadRow = LeadRow(fullName: string, whatsappNumber: string, eventId: string, source: string)

  datatype LeadOutcome = MissingFields | LeadFailed | LeadSaved

  class DetailPage {
    const event: ShownEvent
    var isBooking: bool
    var isSubmittingLead: bool
    var leadSubmitted: bool
    var fullName: string
    var whatsapp: string

    constructor (e: ShownEvent)
      ensures event == e && !isBooking && !isSubmittingLead && !leadSubmitted
      ensures fullName == "" && whatsapp == ""
    {
      event := e;
      isBooking, isSubmittingLead, leadSubmitted := false, false, false;
      fullName, whatsapp := "", "";
    }

    /** `handleBookTicket`. Without a user nothing is inserted. Otherwise the
        pending row is inserted when the backend is configured, and the
        booking succeeds when the insert does; either way the page is no
        longer booking afterwards. */
    method BookTicket(userId: Option<string>, tier: Option<Tier>, backendConfigured: bool, insertSucceeds: bool)
      returns (outcome: BookingOutcome, inserted: Option<BookingRow>)
      modifies this`isBooking
      ensures userId.None? ==> outcome == SignInRequired && inserted == None && isBooking == old(isBooking)
      ensures userId.Some? ==> !isBooking
      ensures inserted == (if userId.Some? && backendConfigured then Some(BookingFor(event, userId.value, tier)) else None)
      ensures outcome == Booked <==> userId.Some? && backendConfigured && insertSucceeds
    {
      inserted := None;
      if userId.None? {
        return SignInRequired, None;
      }
      isBooking := true;
      outcome := BookingFailed;
      if backendConfigured {
        inserted := Some(BookingFor(event, userId.value, tier));
        if insertSucceeds {
          outcome := Booked;
        }
      }
      isBooking := false;
    }

    /** `handleMembershipLead`. A blank name or number is refused with
        nothing stored. Otherwise both are stored trimmed, with the event and
        the source "event_page", and the form shows its thanks only once the
        insert succeeds. */
    method SubmitLead(backendConfigured: bool, insertSucceeds: bool)
      returns (outcome: LeadOutcome, inserted: Option<LeadRow>)
      modifies this`isSubmittingLead, this`leadSubmitted
      ensures Blank(fullName) || Blank(whatsapp) ==>
        outcome == MissingFields && inserted == None
        && isSubmittingLead == old(isSubmittingLead) && leadSubmitted == old(leadSubmitted)
      ensures !Blank(fullName) && !Blank(whatsapp) ==> !isSubmittingLead
      ensures inserted == (if !Blank(fullName) && !Blank(whatsapp) && backendConfigured
                           then Some(LeadRow(Trim(fullName), Trim(whatsapp), event.id, "event_page")) else None)
      ensures outcome == LeadSaved <==> !Blank(fullName) && !Blank(whatsapp) && backendConfigured && insertSucceeds
      ensures leadSubmitted == (outcome == LeadSaved || old(leadSubmitted))
    {
      if Blank(fullName) || Blank(whatsapp) {
        return MissingFields, None;
      }
      isSubmittingLead := true;
      outcome, inserted := LeadFailed, None;
      if backendConfigured {
        inserted := Some(LeadRow(Trim(fullName), Trim(whatsapp), event.id, "event_page"));
        if insertSucceeds {
          leadSubmitted := true;
          outcome := LeadSaved;
        }
      }
      isSubmittingLead := false;
    }
  }

  /** A stored lead never has an empty name or number. */
  lemma StoredLeadsNonEmpty(name: string, number: string)
    requires !Blank(name) && !Blank(number)
    ensures Trim(name) != "" && Trim(number) != ""
  {
    TrimEmptyIff(name);
    TrimEmptyIff(number);
  }

  // ---------------------------------------------------------------------------
  // Description layout
  // ---------------------------------------------------------------------------

  /** How a description line is shown. A bold item has its label and the
      text after it (`None` when the line has no "**:"). */
  datatype Block = Heading(text: string) | BoldItem(caption: string, rest: Option<string>) | Bullet(text: string) | Paragraph(text: string)

  /** `body.split("**:")` read as `[label, rest]`: the text before the first
      "**:" and the text between it and the next one. */
  function SplitLabel(body: string): (r: (string, Option<string>))
  {
    match IndexOf(body, "**:")
    case None => (body, None)
    case Some(i) =>
      var after := body[i + 3..];
      match IndexOf(after, "**:")
      case None => (body[..i], Some(after))
      case Some(j) => (body[..i], Some(after[..j]))
  }

  /** The label is the text up to the first "**:", which it does not
      contain, and there is a rest exactly when the body has a "**:". */
  lemma SplitLabelLead(body: string)
    ensures var (lead, rest) := SplitLabel(body);
      && StartsWith(body, lead) && !Contains(lead, "**:")
      && (rest.None? <==> !Contains(body, "**:"))
  {
    match IndexOf(body, "**:") {
      case None =>
        assert body[..|body|] == body;
      case Some(i) =>
        PrefixAvoids(body, i, "**:");
    }
  }

  /** The label, its marker and the rest start the body, and the rest holds
      no further "**:". */
  lemma SplitLabelRest(body: string)
    requires Contains(body, "**:")
    ensures var (lead, rest) := SplitLabel(body);
      rest.Some? && StartsWith(body, lead + "**:" + rest.value) && !Contains(rest.value, "**:")
  {
    var i := IndexOf(body, "**:").value;
    assert body[i..i + 3] == body[i..][..3];
    var after := body[i + 3..];
    match IndexOf(after, "**:") {
      case None =>
        assert after[..|after|] == after;
        ConcatPrefix(body, i, |after|);
      case Some(j) =>
        PrefixAvoids(after, j, "**:");
        ConcatPrefix(body, i, j);
    }
  }

  lemma ConcatPrefix(body: string, i: nat, j: nat)
    requires i + 3 + j <= |body| && body[i..i + 3] == "**:"
    ensures StartsWith(body, body[..i] + "**:" + body[i + 3..][..j])
  {
    assert body[..i + 3 + j] == body[..i] + "**:" + body[i + 3..][..j];
  }

  /** The four line prefixes the layout tests are told apart by their first
      characters. */
  lemma PrefixesExclusive(line: string)
    ensures StartsWith(line, "## ") ==> !StartsWith(line, "- ") && !StartsWith(line, "- **")
    ensures StartsWith(line, "- **") ==> StartsWith(line, "- ")
  {
    if StartsWith(line, "## ") {
      assert line[0] == '#';
    }
    if StartsWith(line, "- **") {
      assert line[..2] == line[..4][..2];
    }
  }

  /** One line of the description, tested in the source's order. */
  function Classify(line: string): (b: Option<Block>)
    ensures b.None? <==> line == ""
    ensures StartsWith(line, "## ") ==> b == Some(Heading(line[3..]))
    ensures StartsWith(line, "- **") ==> b.Some? && b.value.BoldItem?
    ensures StartsWith(line, "- ") && !StartsWith(line, "- **") ==> b == Some(Bullet(line[2..]))
    ensures line != "" && !StartsWith(line, "## ") && !StartsWith(line, "- ") ==> b == Some(Paragraph(line))
  {
    PrefixesExclusive(line);
    if StartsWith(line, "## ") then Some(Heading(RemoveFirst(line, "## ")))
    else if StartsWith(line, "- **") then
      var (caption, rest) := SplitLabel(RemoveFirst(line, "- **"));
      Some(BoldItem(caption, rest))
    else if StartsWith(line, "- ") then Some(Bullet(RemoveFirst(line, "- ")))
    else if line != "" then Some(Paragraph(line))
    else None
  }

  /** A bold line shows the text after "- **" up to the first "**:". */
  lemma BoldLabel(line: string)
    requires StartsWith(line, "- **")
    ensures Classify(line).value.caption == SplitLabel(line[4..]).0
    ensures !Contains(Classify(line).value.caption, "**:")
  {
    PrefixesExclusive(line);
    SplitLabelLead(line[4..]);
  }

  /** The blocks of a description: its lines in order, empty ones dropped. */
  function Layout(description: string): (blocks: seq<Block>)
    ensures var kept := Filter(Split(description, '\n'), NonEmptyLine);
      && |blocks| == |kept|
      && forall k :: 0 <= k < |blocks| ==> Some(blocks[k]) == Classify(kept[k])
  {
    BlocksAreClassifiedLines(Split(description, '\n'));
    Blocks(Split(description, '\n'))
  }

  function Blocks(lines: seq<string>): (blocks: seq<Block>)
    ensures |blocks| <= |lines|
    ensures |blocks| == |lines| - CountEmpty(lines)
  {
    if lines == [] then []
    else
      var rest := Blocks(lines[1..]);
      match Classify(lines[0])
      case None => rest
      case Some(b) => [b] + rest
  }

  predicate NonEmptyLine(line: string)
  {
    line != ""
  }

  /** The blocks are the non-empty lines, in their order, each classified. */
  lemma {:induction false} BlocksAreClassifiedLines(lines: seq<string>)
    ensures |Blocks(lines)| == |Filter(lines, NonEmptyLine)|
    ensures forall k :: 0 <= k < |Blocks(lines)| ==>
      Some(Blocks(lines)[k]) == Classify(Filter(lines, NonEmptyLine)[k])
  {
    if lines != [] {
      BlocksAreClassifiedLines(lines[1..]);
      var tail, rest := Blocks(lines[1..]), Filter(lines[1..], NonEmptyLine);
      if lines[0] != "" {
        assert Blocks(lines) == [Classify(lines[0]).value] + tail;
        assert Filter(lines, NonEmptyLine) == [lines[0]] + rest;
      } else {
        assert Blocks(lines) == tail;
        assert Filter(lines, NonEmptyLine) == rest;
      }
    }
  }

  function CountEmpty(lines: seq<string>): (n: nat)
    ensures n <= |lines|
  {
    if lines == [] then 0 else (if lines[0] == "" then 1 else 0) + CountEmpty(lines[1..])
  }

  /** No block is an empty paragraph; every block comes from a line. */
  lemma {:induction false} BlocksNonEmpty(lines: seq<string>)
    ensures forall k :: 0 <= k < |Blocks(lines)| ==> Blocks(lines)[k] != Paragraph("")
  {
    if lines != [] {
      BlocksNonEmpty(lines[1..]);
    }
  }
}
