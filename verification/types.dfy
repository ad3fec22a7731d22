/**
 * The records of the scheduling dashboard: events, overlap tickets, staff
 * invites, the analytics snapshot and validation errors, together with the
 * partially filled drafts the forms submit.
 *
 * Time is discrete: a calendar date is a day number, a time of day is a
 * count of minutes after midnight, and an instant is a count of milliseconds
 * in the same local wall-clock frame as the dates.
 */
module Types {
  import opened Wrappers

  type Day = int
  type MinuteOfDay = m: int | 0 <= m < 1440
  type Instant = int
  /** Index into the twelve English month names, as `Date.getMonth` returns it. */
  type MonthIndex = i: int | 0 <= i < 12

  const MINUTE_MS: int := 60 * 1000
  const HOUR_MS: int := 60 * MINUTE_MS
  const DAY_MS: int := 24 * HOUR_MS

  /** The instant a day starts: what parsing a bare date yields. */
  function DayStart(d: Day): Instant {
    d * DAY_MS
  }

  /** The instant of time `t` on day `d`: what parsing `${date}T${time}` yields. */
  function At(d: Day, t: MinuteOfDay): Instant {
    DayStart(d) + t * MINUTE_MS
  }

  /** The hour part of a time of day, as the validators parse it from "HH:MM". */
  function Hour(t: MinuteOfDay): int {
    t / 60
  }

  datatype EventStatus = Pending | Approved | Rejected | Completed
  datatype TicketStatus = Pending | Resolved | InProgress
  datatype TicketPriority = Low | Medium | High
  datatype TicketCategory = Technical | Venue | Equipment | Other
  datatype InviteStatus = Pending | Accepted | Rejected
  datatype InviteCategory = Pending | Approved

  /** The wire spelling of an event status. */
  function EventStatusName(s: EventStatus): string {
    match s
    case Pending => "pending"
    case Approved => "approved"
    case Rejected => "rejected"
    case Completed => "completed"
  }

  /** The wire spelling of a ticket priority. */
  function PriorityName(p: TicketPriority): string {
    match p
    case Low => "low"
    case Medium => "medium"
    case High => "high"
  }

  datatype StaffCoordinator = StaffCoordinator(id: string, name: string, department: string)

  datatype Event = Event(
    id: string,
    title: string,
    club: Option<string>,
    date: Day,
    startTime: MinuteOfDay,
    endTime: MinuteOfDay,
    venue: string,
    building: string,
    description: string,
    status: EventStatus,
    clubLogo: Option<string>,
    eventPoster: Option<string>,
    staffCoordinator: StaffCoordinator,
    createdAt: Instant,
    updatedAt: Instant,
    rejectionReason: Option<string>,
    requirements: Option<string>,
    expectedAttendees: Option<int>)

  /** A `Partial<Event>` as the submission form hands it over. */
  datatype EventDraft = EventDraft(
    id: Option<string>,
    title: Option<string>,
    club: Option<string>,
    date: Option<Day>,
    startTime: Option<MinuteOfDay>,
    endTime: Option<MinuteOfDay>,
    venue: Option<string>,
    building: Option<string>,
    description: Option<string>,
    status: Option<EventStatus>,
    clubLogo: Option<string>,
    eventPoster: Option<string>,
    staffCoordinator: Option<StaffCoordinator>,
    createdAt: Option<Instant>,
    updatedAt: Option<Instant>,
    rejectionReason: Option<string>,
    requirements: Option<string>,
    expectedAttendees: Option<int>)

  datatype Ticket = Ticket(
    id: string,
    club: Option<string>,
    title: string,
    description: string,
    status: TicketStatus,
    createdAt: Instant,
    priority: TicketPriority,
    resolution: Option<string>,
    category: TicketCategory,
    attachments: Option<seq<string>>)

  /** A `Partial<Ticket>`. */
  datatype TicketDraft = TicketDraft(
    id: Option<string>,
    club: Option<string>,
    title: Option<string>,
    description: Option<string>,
    status: Option<TicketStatus>,
    createdAt: Option<Instant>,
    priority: Option<TicketPriority>,
    resolution: Option<string>,
    category: Option<TicketCategory>,
    attachments: Option<seq<string>>)

  datatype StaffInvite = StaffInvite(
    id: string,
    club: Option<string>,
    staffId: string,
    staffName: Option<string>,
    department: string,
    role: string,
    status: InviteStatus,
    createdAt: Instant,
    response: Option<string>,
    description: string,
    poster: Option<string>,
    category: InviteCategory,
    rejectionReason: Option<string>)

  /** A `Partial<StaffInvite>`. */
  datatype StaffInviteDraft = StaffInviteDraft(
    id: Option<string>,
    club: Option<string>,
    staffId: Option<string>,
    staffName: Option<string>,
    department: Option<string>,
    role: Option<string>,
    status: Option<InviteStatus>,
    createdAt: Option<Instant>,
    response: Option<string>,
    description: Option<string>,
    poster: Option<string>,
    category: Option<InviteCategory>,
    rejectionReason: Option<string>)

  /** One `{key, count}` entry of a grouped count. */
  datatype GroupCount = GroupCount(key: string, count: nat)

  datatype EventAnalytics = EventAnalytics(
    clubEvents: seq<GroupCount>,
    buildingUsage: seq<GroupCount>,
    upcomingEvents: seq<Event>,
    totalEvents: nat,
    pendingApprovals: nat,
    ticketsByPriority: seq<GroupCount>,
    invitesByDepartment: seq<GroupCount>,
    eventsByStatus: seq<GroupCount>,
    monthlyEventCount: seq<GroupCount>)

  /** The form field an error is reported against. */
  datatype Field = Title | Date | StartTime | EndTime | Venue | Building | Coordinator
                 | Description | Department | Staff | Role | Category | Priority

  /** The messages the validators report, one constructor per distinct text. */
  datatype Message =
    | EventTitleIsRequired | TicketTitleIsRequired | EventDateIsRequired | DateMustBeFuture
    | StartTimeIsRequired | EndTimeIsRequired | NeedsDayNotice | EndMustFollowStart
    | StartOutsideWindow | EndOutsideWindow | VenueIsRequired | BuildingIsRequired
    | CoordinatorIsRequired | EventDescriptionIsRequired | DescriptionIsRequired
    | DescriptionUnderFifty | DepartmentIsRequired | StaffIsRequired | RoleIsRequired
    | CategoryIsRequired | PriorityIsRequired

  /** A `{field, message}` error; `FieldName` and `MessageText` give its two strings. */
  datatype ValidationError = ValidationError(field: Field, message: Message)

  function FieldName(f: Field): string {
    match f
    case Title => "title"
    case Date => "date"
    case StartTime => "startTime"
    case EndTime => "endTime"
    case Venue => "venue"
    case Building => "building"
    case Coordinator => "staffCoordinator"
    case Description => "description"
    case Department => "department"
    case Staff => "staff"
    case Role => "role"
    case Category => "category"
    case Priority => "priority"
  }

  function MessageText(m: Message): string {
    match m
    case EventTitleIsRequired => "Event title is required"
    case TicketTitleIsRequired => "Ticket title is required"
    case EventDateIsRequired => "Event date is required"
    case DateMustBeFuture => "Event date must be in the future"
    case StartTimeIsRequired => "Start time is required"
    case EndTimeIsRequired => "End time is required"
    case NeedsDayNotice => "Events must be scheduled at least 24 hours in advance"
    case EndMustFollowStart => "End time must be after start time"
    case StartOutsideWindow => "Events must be scheduled between 9 AM and 5 PM"
    case EndOutsideWindow => "Events must end between 9 AM and 5 PM"
    case VenueIsRequired => "Venue is required"
    case BuildingIsRequired => "Building is required"
    case CoordinatorIsRequired => "Staff coordinator is required"
    case EventDescriptionIsRequired => "Event description is required"
    case DescriptionIsRequired => "Description is required"
    case DescriptionUnderFifty => "Description must be at least 50 characters long"
    case DepartmentIsRequired => "Department is required"
    case StaffIsRequired => "Staff member selection is required"
    case RoleIsRequired => "Role is required"
    case CategoryIsRequired => "Category is required"
    case PriorityIsRequired => "Priority level is required"
  }

  /** A JavaScript truthiness test on an optional string: present and not "". */
  predicate Filled(s: Option<string>) {
    s.Some? && s.value != ""
  }
}
