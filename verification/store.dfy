/**
 * The event store: the three collections and the analytics snapshot, updated
 * in place by the three submission operations. Every operation takes the
 * current time and, where the source stamps a fresh id from the clock, that id
 * as parameters; notifications are not modelled.
 */
module Store {
  import opened Wrappers
  import opened Types
  import opened Validation
  import opened Overlap
  import opened Queries
  import opened Analytics

  /** A booked slot is well formed: it ends after it starts, both inside opening hours. */
  predicate WellScheduled(e: Event) {
    e.startTime < e.endTime && WithinOperatingHours(e.startTime) && WithinOperatingHours(e.endTime)
  }

  /** Whether `addEvent` accepts `draft` against the current events. */
  predicate AdmitsEvent(events: seq<Event>, draft: EventDraft, now: Instant) {
    EventSubmissionErrors(draft, now) == []
    && !CheckOverlap(events, draft.date.value, draft.startTime.value, draft.endTime.value, draft.venue.value, now)
  }

  /**
   * The record `addEvent` appends: the generated id comes first and is
   * overridden by an id the caller supplied; status and both timestamps are
   * forced; every other field is the caller's.
   */
  function AdmittedEvent(draft: EventDraft, now: Instant, generatedId: string): (e: Event)
    requires EventSubmissionErrors(draft, now) == []
    ensures draft.id.Some? ==> e.id == draft.id.value
    ensures draft.id.None? ==> e.id == generatedId
    ensures e.status == EventStatus.Pending && e.createdAt == now && e.updatedAt == now
    ensures Some(e.title) == draft.title && Some(e.date) == draft.date && e.club == draft.club
    ensures Some(e.startTime) == draft.startTime && Some(e.endTime) == draft.endTime
    ensures Some(e.venue) == draft.venue && Some(e.building) == draft.building
    ensures Some(e.description) == draft.description && Some(e.staffCoordinator) == draft.staffCoordinator
    ensures e.clubLogo == draft.clubLogo && e.eventPoster == draft.eventPoster
    ensures e.rejectionReason == draft.rejectionReason && e.requirements == draft.requirements
    ensures e.expectedAttendees == draft.expectedAttendees
    ensures WellScheduled(e) && At(e.date, e.startTime) >= now + DAY_MS
  {
    Event(
      id := draft.id.GetOr(generatedId),
      title := draft.title.value,
      club := draft.club,
      date := draft.date.value,
      startTime := draft.startTime.value,
      endTime := draft.endTime.value,
      venue := draft.venue.value,
      building := draft.building.value,
      description := draft.description.value,
      status := EventStatus.Pending,
      clubLogo := draft.clubLogo,
      eventPoster := draft.eventPoster,
      staffCoordinator := draft.staffCoordinator.value,
      createdAt := now,
      updatedAt := now,
      rejectionReason := draft.rejectionReason,
      requirements := draft.requirements,
      expectedAttendees := draft.expectedAttendees)
  }

  function TicketDraftErrors(draft: TicketDraft): seq<ValidationError> {
    TicketErrors(draft.title, draft.description, draft.category, draft.priority)
  }

  /** The record `addTicket` appends: status and creation time forced, the rest the caller's. */
  function AdmittedTicket(draft: TicketDraft, now: Instant, generatedId: string): (t: Ticket)
    requires TicketDraftErrors(draft) == []
    ensures draft.id.Some? ==> t.id == draft.id.value
    ensures draft.id.None? ==> t.id == generatedId
    ensures t.status == TicketStatus.Pending && t.createdAt == now
    ensures Some(t.title) == draft.title && Some(t.description) == draft.description && t.club == draft.club
    ensures Some(t.priority) == draft.priority && Some(t.category) == draft.category
    ensures t.resolution == draft.resolution && t.attachments == draft.attachments
  {
    Ticket(
      id := draft.id.GetOr(generatedId),
      club := draft.club,
      title := draft.title.value,
      description := draft.description.value,
      status := TicketStatus.Pending,
      createdAt := now,
      priority := draft.priority.value,
      resolution := draft.resolution,
      category := draft.category.value,
      attachments := draft.attachments)
  }

  /** The invite validator is handed the draft's `staffId` as the staff member. */
  function InviteDraftErrors(draft: StaffInviteDraft): seq<ValidationError> {
    StaffInviteErrors(draft.department, draft.staffId, draft.role, draft.description)
  }

  /** The record `addStaffInvite` appends: status, creation time and category forced. */
  function AdmittedInvite(draft: StaffInviteDraft, now: Instant, generatedId: string): (v: StaffInvite)
    requires InviteDraftErrors(draft) == []
    ensures draft.id.Some? ==> v.id == draft.id.value
    ensures draft.id.None? ==> v.id == generatedId
    ensures v.status == InviteStatus.Pending && v.createdAt == now && v.category == InviteCategory.Pending
    ensures Some(v.staffId) == draft.staffId && Some(v.department) == draft.department
    ensures Some(v.role) == draft.role && Some(v.description) == draft.description && v.club == draft.club
    ensures v.staffName == draft.staffName && v.response == draft.response
    ensures v.poster == draft.poster && v.rejectionReason == draft.rejectionReason
  {
    StaffInvite(
      id := draft.id.GetOr(generatedId),
      club := draft.club,
      staffId := draft.staffId.value,
      staffName := draft.staffName,
      department := draft.department.value,
      role := draft.role.value,
      status := InviteStatus.Pending,
      createdAt := now,
      response := draft.response,
      description := draft.description.value,
      poster := draft.poster,
      category := InviteCategory.Pending,
      rejectionReason := draft.rejectionReason)
  }

  /**
   * The booking history: every event was, when it was added, a well-formed
   * slot that no earlier event blocked.
   */
  ghost predicate Booked(events: seq<Event>) {
    events == [] ||
    var e := events[|events| - 1];
    var earlier := events[..|events| - 1];
    Booked(earlier) && WellScheduled(e) && !SomeBlocks(earlier, e.date, e.startTime, e.endTime, e.venue)
  }

  /** A booked collection has no venue conflicts and only well-formed slots. */
  lemma {:induction false} BookedHasNoConflicts(events: seq<Event>)
    requires Booked(events)
    ensures NoVenueConflicts(events)
    ensures forall i :: 0 <= i < |events| ==> WellScheduled(events[i])
  {
    if events != [] {
      var e := events[|events| - 1];
      var earlier := events[..|events| - 1];
      BookedHasNoConflicts(earlier);
      assert events == earlier + [e];
      forall i, j | 0 <= i < j < |events|
        ensures !Clashes(events[i], events[j].date, events[j].startTime, events[j].endTime, events[j].venue)
      {
        assert events[i] == earlier[i];
        if j < |earlier| {
          assert events[j] == earlier[j];
        }
      }
    }
  }

  /** A well-formed slot that passed the detector keeps the collection booked once appended. */
  lemma AppendKeepsBooked(events: seq<Event>, e: Event, now: Instant)
    requires Booked(events) && WellScheduled(e)
    requires !CheckOverlap(events, e.date, e.startTime, e.endTime, e.venue, now)
    ensures Booked(events + [e])
  {
    assert (events + [e])[..|events|] == events;
  }

  /** An event `addEvent` admits keeps the collection booked. */
  lemma AdmissionKeepsBooked(events: seq<Event>, draft: EventDraft, now: Instant, generatedId: string)
    requires Booked(events) && AdmitsEvent(events, draft, now)
    ensures Booked(events + [AdmittedEvent(draft, now, generatedId)])
  {
    AppendKeepsBooked(events, AdmittedEvent(draft, now, generatedId), now);
  }

  /**
   * Both gates enforce the 24-hour notice: a draft that passed validation
   * never reaches the detector's own notice check, which then only looks for
   * clashes.
   */
  lemma ValidatedDraftPassesNoticeGate(events: seq<Event>, draft: EventDraft, now: Instant)
    requires EventSubmissionErrors(draft, now) == []
    ensures !TooLittleNotice(draft.date.value, draft.startTime.value, now)
    ensures CheckOverlap(events, draft.date.value, draft.startTime.value, draft.endTime.value, draft.venue.value, now)
         == SomeBlocks(events, draft.date.value, draft.startTime.value, draft.endTime.value, draft.venue.value)
  {
  }

  const SEED_DAY: Day := 20172              // 2025-03-25
  /** The seeds' "2025-03-20T10:00:00Z" stamps, read as 10:00 on that day in the local frame. */
  const SEED_STAMP: Instant := 1742464800000

  const SeedEvent: Event := Event(
    id := "1",
    title := "Tech Workshop",
    club := Some("Tech Club"),
    date := SEED_DAY,
    startTime := 10 * 60,
    endTime := 12 * 60,
    venue := "Main Auditorium",
    building := "Main Building",
    description := "Annual tech workshop",
    status := EventStatus.Approved,
    clubLogo := Some("https://images.unsplash.com/photo-1518314916381-77a37c2a49ae?auto=format&fit=crop&q=80&w=2000"),
    eventPoster := Some("https://images.unsplash.com/photo-1516321497487-e288fb19713f?auto=format&fit=crop&q=80&w=2000"),
    staffCoordinator := StaffCoordinator("cs1", "Dr. John Smith", "Computer Science"),
    createdAt := SEED_STAMP,
    updatedAt := SEED_STAMP,
    rejectionReason := None,
    requirements := Some("Projector, Sound System"),
    expectedAttendees := Some(200))

  const SeedTicket: Ticket := Ticket(
    id := "1",
    club := Some("Tech Club"),
    title := "Venue Overlap Issue",
    description := "Schedule conflict with Science Club event",
    status := TicketStatus.Pending,
    createdAt := SEED_STAMP,
    priority := TicketPriority.High,
    resolution := None,
    category := TicketCategory.Venue,
    attachments := Some([]))

  const SeedInvite: StaffInvite := StaffInvite(
    id := "1",
    club := Some("Tech Club"),
    staffId := "cs1",
    staffName := Some("Dr. John Smith"),
    department := "Computer Science",
    role := "Event Coordinator",
    status := InviteStatus.Pending,
    createdAt := SEED_STAMP,
    response := None,
    description := "We need your expertise for our upcoming tech workshop",
    poster := None,
    category := InviteCategory.Pending,
    rejectionReason := None)

  /** The hard-coded starting snapshot; it describes none of the seed collections. */
  const MockAnalytics: EventAnalytics := EventAnalytics(
    clubEvents := [GroupCount("Tech Club", 15), GroupCount("Science Club", 12), GroupCount("Arts Club", 8)],
    buildingUsage := [GroupCount("Main Building", 25), GroupCount("Science Block", 18), GroupCount("Library Building", 12)],
    upcomingEvents := [],
    totalEvents := 45,
    pendingApprovals := 5,
    ticketsByPriority := [GroupCount("High", 5), GroupCount("Medium", 8), GroupCount("Low", 3)],
    invitesByDepartment := [GroupCount("Computer Science", 10), GroupCount("Physics", 7), GroupCount("Mathematics", 5)],
    eventsByStatus := [GroupCount("Approved", 30), GroupCount("Pending", 10), GroupCount("Rejected", 5)],
    monthlyEventCount := [GroupCount("January", 8), GroupCount("February", 12), GroupCount("March", 15)])

  /** The starting snapshot is not what a rebuild over the seed collections gives, at any time. */
  lemma InitialAnalyticsIsMock(now: Instant, monthOf: Day -> MonthIndex)
    ensures MockAnalytics != Snapshot([SeedEvent], [SeedTicket], [SeedInvite], now, monthOf)
  {
    SnapshotCounts([SeedEvent], [SeedTicket], [SeedInvite], now, monthOf);
  }

  class EventStore {
    var events: seq<Event>
    var tickets: seq<Ticket>
    var staffInvites: seq<StaffInvite>
    var analytics: EventAnalytics
    /** The calendar month of a day, as the local clock reads it. */
    const monthOf: Day -> MonthIndex

    /** Every event was admitted against the ones before it; see `BookedHasNoConflicts`. */
    ghost predicate Valid()
      reads this`events
    {
      Booked(events)
    }

    /** The analytics snapshot describes the current collections. */
    ghost predicate Current(now: Instant)
      reads this`events, this`tickets, this`staffInvites, this`analytics
    {
      analytics == Snapshot(events, tickets, staffInvites, now, monthOf)
    }

    constructor(monthOf: Day -> MonthIndex)
      ensures Valid()
      ensures this.monthOf == monthOf
      ensures events == [SeedEvent] && tickets == [SeedTicket] && staffInvites == [SeedInvite]
      ensures analytics == MockAnalytics
    {
      events := [SeedEvent];
      assert [SeedEvent][..0] == [];
      assert WellScheduled(SeedEvent);
      assert !SomeBlocks([], SEED_DAY, SeedEvent.startTime, SeedEvent.endTime, SeedEvent.venue);
      tickets := [SeedTicket];
      staffInvites := [SeedInvite];
      analytics := MockAnalytics;
      this.monthOf := monthOf;
    }

    /** `updateAnalytics`: a full rebuild of every field from the three collections. */
    method UpdateAnalytics(now: Instant)
      modifies this`analytics
      ensures Current(now)
    {
      analytics := Rebuild(events, tickets, staffInvites, now, monthOf);
    }

    /**
     * `addEvent`: validate, then check the slot, then append the admitted
     * record and rebuild the analytics; a rejected draft changes nothing.
     */
    method AddEvent(draft: EventDraft, now: Instant, generatedId: string) returns (ok: bool)
      requires Valid()
      modifies this`events, this`analytics
      ensures Valid()
      ensures ok == AdmitsEvent(old(events), draft, now)
      ensures ok ==> events == old(events) + [AdmittedEvent(draft, now, generatedId)] && Current(now)
      ensures !ok ==> events == old(events) && analytics == old(analytics)
    {
      ok := false;
      var errors := EventSubmissionErrors(draft, now);
      if |errors| == 0 {
        var blocked := CheckOverlap(events, draft.date.value, draft.startTime.value, draft.endTime.value,
                                    draft.venue.value, now);
        if !blocked {
          AdmissionKeepsBooked(events, draft, now, generatedId);
          events := events + [AdmittedEvent(draft, now, generatedId)];
          UpdateAnalytics(now);
          ok := true;
        }
      }
    }

    /** `addTicket`: validate and append; no overlap check and no analytics rebuild. */
    method AddTicket(draft: TicketDraft, now: Instant, generatedId: string) returns (ok: bool)
      modifies this`tickets
      ensures ok == (TicketDraftErrors(draft) == [])
      ensures ok ==> tickets == old(tickets) + [AdmittedTicket(draft, now, generatedId)]
      ensures !ok ==> tickets == old(tickets)
    {
      var errors := TicketDraftErrors(draft);
      if |errors| > 0 {
        return false;
      }
      tickets := tickets + [AdmittedTicket(draft, now, generatedId)];
      return true;
    }

    /** `addStaffInvite`: validate and append; no analytics rebuild. */
    method AddStaffInvite(draft: StaffInviteDraft, now: Instant, generatedId: string) returns (ok: bool)
      modifies this`staffInvites
      ensures ok == (InviteDraftErrors(draft) == [])
      ensures ok ==> staffInvites == old(staffInvites) + [AdmittedInvite(draft, now, generatedId)]
      ensures !ok ==> staffInvites == old(staffInvites)
    {
      var errors := InviteDraftErrors(draft);
      if |errors| > 0 {
        return false;
      }
      staffInvites := staffInvites + [AdmittedInvite(draft, now, generatedId)];
      return true;
    }
  }
}
