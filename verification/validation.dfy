/**
 * Field validation of event, staff-invite and ticket submissions. Every rule
 * is evaluated and its error collected in order; nothing short-circuits, and
 * an empty list means the submission is well formed.
 */
module Validation {
  import opened Wrappers
  import opened Types
  import opened Text

  const MIN_DESCRIPTION_LENGTH: nat := 50
  const OPENING_HOUR: int := 9
  const CLOSING_HOUR: int := 17

  const TitleRequired := ValidationError(Field.Title, EventTitleIsRequired)
  const DateRequired := ValidationError(Field.Date, EventDateIsRequired)
  const DateInPast := ValidationError(Field.Date, DateMustBeFuture)
  const StartTimeRequired := ValidationError(Field.StartTime, StartTimeIsRequired)
  const EndTimeRequired := ValidationError(Field.EndTime, EndTimeIsRequired)
  const LeadTimeTooShort := ValidationError(Field.Date, NeedsDayNotice)
  const EndNotAfterStart := ValidationError(Field.EndTime, EndMustFollowStart)
  const StartOutsideHours := ValidationError(Field.StartTime, StartOutsideWindow)
  const EndOutsideHours := ValidationError(Field.EndTime, EndOutsideWindow)
  const VenueRequired := ValidationError(Field.Venue, VenueIsRequired)
  const BuildingRequired := ValidationError(Field.Building, BuildingIsRequired)
  const StaffCoordinatorRequired := ValidationError(Field.Coordinator, CoordinatorIsRequired)
  const EventDescriptionRequired := ValidationError(Field.Description, EventDescriptionIsRequired)
  const DescriptionRequired := ValidationError(Field.Description, DescriptionIsRequired)
  const DescriptionTooShort := ValidationError(Field.Description, DescriptionUnderFifty)
  const DepartmentRequired := ValidationError(Field.Department, DepartmentIsRequired)
  const StaffRequired := ValidationError(Field.Staff, StaffIsRequired)
  const RoleRequired := ValidationError(Field.Role, RoleIsRequired)
  const TicketTitleRequired := ValidationError(Field.Title, TicketTitleIsRequired)
  const CategoryRequired := ValidationError(Field.Category, CategoryIsRequired)
  const PriorityRequired := ValidationError(Field.Priority, PriorityIsRequired)

  /** The errors of the presence checks on title, date and times, and of the past-date check. */
  predicate IsRequiredFieldError(e: ValidationError) {
    e == TitleRequired || e == DateRequired || e == DateInPast || e == StartTimeRequired || e == EndTimeRequired
  }

  /** The errors of the checks that need both times. */
  predicate IsTimeError(e: ValidationError) {
    e == LeadTimeTooShort || e == EndNotAfterStart || e == StartOutsideHours || e == EndOutsideHours
  }

  /** The errors of the presence checks on venue, building and coordinator. */
  predicate IsPlacementError(e: ValidationError) {
    e == VenueRequired || e == BuildingRequired || e == StaffCoordinatorRequired
  }

  /** Every error the event validator can report. */
  predicate IsEventError(e: ValidationError) {
    IsRequiredFieldError(e) || IsTimeError(e) || IsPlacementError(e)
    || e == EventDescriptionRequired || e == DescriptionTooShort
  }

  /** Absent, or nothing but white space: the case `!s?.trim()` rejects. */
  ghost predicate Blank(s: Option<string>) {
    s.None? || AllWhitespace(s.value)
  }

  /** The executable form of `!s?.trim()`. */
  predicate TrimsToEmpty(s: Option<string>)
    ensures TrimsToEmpty(s) <==> Blank(s)
  {
    if s.Some? then TrimEmptyIffBlank(s.value); Trim(s.value) == [] else true
  }

  /** Only the hour of a time is checked, so 17:59 is inside the window. */
  predicate WithinOperatingHours(t: MinuteOfDay) {
    OPENING_HOUR <= Hour(t) <= CLOSING_HOUR
  }

  /** `${date}T${time}` parsed: an instant, or an invalid date when the date is missing. */
  function Combine(date: Option<Day>, t: MinuteOfDay): (r: Option<Instant>)
    ensures r.Some? <==> date.Some?
    ensures r.Some? ==> DayStart(date.value) <= r.value < DayStart(date.value + 1)
  {
    if date.Some? then Some(At(date.value, t)) else None
  }

  /** `isBefore` on a possibly invalid date: false when the date is invalid. */
  predicate IsBefore(a: Option<Instant>, b: Instant) {
    a.Some? && a.value < b
  }

  /** `isAfter` on possibly invalid dates: false when either is invalid. */
  predicate IsAfter(a: Option<Instant>, b: Option<Instant>) {
    a.Some? && b.Some? && a.value > b.value
  }

  /** On one valid date, `isAfter` of two combined timestamps compares the times of day. */
  lemma CombinedOrderIsTimeOrder(d: Day, start: MinuteOfDay, end: MinuteOfDay)
    ensures IsAfter(Combine(Some(d), end), Combine(Some(d), start)) <==> start < end
    ensures !IsAfter(Combine(None, end), Combine(None, start))
  {
  }

  /** `kind` is among `errors` exactly when `holds`. */
  ghost predicate Reports(errors: seq<ValidationError>, kind: ValidationError, holds: bool) {
    kind in errors <==> holds
  }

  /** The description rule: "required" when blank, otherwise "too short" under 50 characters. */
  ghost predicate ReportsDescriptionRule(d: Option<string>, required: ValidationError, errors: seq<ValidationError>) {
    && Reports(errors, required, Blank(d))
    && Reports(errors, DescriptionTooShort, !Blank(d) && |d.value| < MIN_DESCRIPTION_LENGTH)
  }

  /** The presence rules on title, date and both times, and the rule that the date is not past. */
  ghost predicate ReportsPresenceRules(f: EventDraft, now: Instant, errors: seq<ValidationError>) {
    && Reports(errors, TitleRequired, Blank(f.title))
    && Reports(errors, DateRequired, f.date.None?)
    && Reports(errors, DateInPast, f.date.Some? && DayStart(f.date.value) < now)
    && Reports(errors, StartTimeRequired, f.startTime.None?)
    && Reports(errors, EndTimeRequired, f.endTime.None?)
  }

  /**
   * The rules that apply once both times are given: 24 hours' notice, end
   * after start (failing also when the date is missing, since the combined
   * timestamps are then invalid) and the operating window for each time.
   */
  ghost predicate ReportsTimingRules(f: EventDraft, now: Instant, errors: seq<ValidationError>) {
    var timed := f.startTime.Some? && f.endTime.Some?;
    && Reports(errors, LeadTimeTooShort,
               timed && f.date.Some? && At(f.date.value, f.startTime.value) < now + DAY_MS)
    && Reports(errors, EndNotAfterStart,
               timed && (f.date.None? || f.endTime.value <= f.startTime.value))
    && Reports(errors, StartOutsideHours, timed && !WithinOperatingHours(f.startTime.value))
    && Reports(errors, EndOutsideHours, timed && !WithinOperatingHours(f.endTime.value))
  }

  /** The presence rules on venue, building and staff coordinator. */
  ghost predicate ReportsPlacementRules(f: EventDraft, errors: seq<ValidationError>) {
    && Reports(errors, VenueRequired, !Filled(f.venue))
    && Reports(errors, BuildingRequired, !Filled(f.building))
    && Reports(errors, StaffCoordinatorRequired, f.staffCoordinator.None?)
  }

  /** The presence checks on title, date and both times, and the past-date check, all pass. */
  ghost predicate PresencePasses(f: EventDraft, now: Instant) {
    !Blank(f.title) && f.date.Some? && DayStart(f.date.value) >= now && f.startTime.Some? && f.endTime.Some?
  }

  /** The checks that need both times pass, or do not apply. */
  ghost predicate TimingPasses(f: EventDraft, now: Instant) {
    f.startTime.Some? && f.endTime.Some? ==>
      && f.date.Some? && At(f.date.value, f.startTime.value) >= now + DAY_MS
      && f.startTime.value < f.endTime.value
      && WithinOperatingHours(f.startTime.value) && WithinOperatingHours(f.endTime.value)
  }

  /** Venue, building and staff coordinator are all given. */
  predicate PlacementPasses(f: EventDraft) {
    Filled(f.venue) && Filled(f.building) && f.staffCoordinator.Some?
  }

  /** The description is neither blank nor under 50 characters. */
  ghost predicate DescriptionPasses(d: Option<string>) {
    !Blank(d) && |d.value| >= MIN_DESCRIPTION_LENGTH
  }

  function DescriptionErrors(d: Option<string>, required: ValidationError): (errors: seq<ValidationError>)
    requires required != DescriptionTooShort
    ensures ReportsDescriptionRule(d, required, errors)
    ensures forall e :: e in errors ==> e == required || e == DescriptionTooShort
    ensures errors == [] <==> DescriptionPasses(d)
  {
    if TrimsToEmpty(d) then [required]
    else if |d.value| < MIN_DESCRIPTION_LENGTH then [DescriptionTooShort]
    else []
  }

  function RequiredFieldErrors(f: EventDraft, now: Instant): (errors: seq<ValidationError>)
    ensures ReportsPresenceRules(f, now, errors)
    ensures forall e :: e in errors ==> IsRequiredFieldError(e)
    ensures errors == [] <==> PresencePasses(f, now)
  {
    var title := if TrimsToEmpty(f.title) then [TitleRequired] else [];
    var date := if f.date.None? then [DateRequired]
                else if IsBefore(Some(DayStart(f.date.value)), now) then [DateInPast] else [];
    var start := if f.startTime.None? then [StartTimeRequired] else [];
    var end := if f.endTime.None? then [EndTimeRequired] else [];
    assert forall e :: e in title + date + start + end <==> e in title || e in date || e in start || e in end;
    title + date + start + end
  }

  function TimeErrors(f: EventDraft, now: Instant): (errors: seq<ValidationError>)
    ensures ReportsTimingRules(f, now, errors)
    ensures forall e :: e in errors ==> IsTimeError(e)
    ensures errors == [] <==> TimingPasses(f, now)
  {
    if f.startTime.None? || f.endTime.None? then []
    else
      var startAt := Combine(f.date, f.startTime.value);
      var endAt := Combine(f.date, f.endTime.value);
      (if IsBefore(startAt, now + DAY_MS) then [LeadTimeTooShort] else [])
      + (if !IsAfter(endAt, startAt) then [EndNotAfterStart] else [])
      + (if !WithinOperatingHours(f.startTime.value) then [StartOutsideHours] else [])
      + (if !WithinOperatingHours(f.endTime.value) then [EndOutsideHours] else [])
  }

  function PlacementErrors(f: EventDraft): (errors: seq<ValidationError>)
    ensures ReportsPlacementRules(f, errors)
    ensures forall e :: e in errors ==> IsPlacementError(e)
    ensures errors == [] <==> PlacementPasses(f)
  {
    (if !Filled(f.venue) then [VenueRequired] else [])
    + (if !Filled(f.building) then [BuildingRequired] else [])
    + (if f.staffCoordinator.None? then [StaffCoordinatorRequired] else [])
  }

  /** The four groups of event checks, each reporting its own rules and only its own kinds of error. */
  ghost predicate EventCheckGroups(f: EventDraft, now: Instant, presence: seq<ValidationError>,
                                   timing: seq<ValidationError>, placement: seq<ValidationError>,
                                   description: seq<ValidationError>) {
    && ReportsPresenceRules(f, now, presence) && (forall e :: e in presence ==> IsRequiredFieldError(e))
    && ReportsTimingRules(f, now, timing) && (forall e :: e in timing ==> IsTimeError(e))
    && ReportsPlacementRules(f, placement) && (forall e :: e in placement ==> IsPlacementError(e))
    && ReportsDescriptionRule(f.description, EventDescriptionRequired, description)
    && (forall e :: e in description ==> e == EventDescriptionRequired || e == DescriptionTooShort)
  }

  /** Appending the other groups' errors keeps each group's rules reported. */
  lemma PresenceRulesFramed(f: EventDraft, now: Instant, p: seq<ValidationError>, t: seq<ValidationError>,
                            l: seq<ValidationError>, d: seq<ValidationError>)
    requires EventCheckGroups(f, now, p, t, l, d)
    ensures ReportsPresenceRules(f, now, p + t + l + d)
  {
  }

  lemma TimingRulesFramed(f: EventDraft, now: Instant, p: seq<ValidationError>, t: seq<ValidationError>,
                          l: seq<ValidationError>, d: seq<ValidationError>)
    requires EventCheckGroups(f, now, p, t, l, d)
    ensures ReportsTimingRules(f, now, p + t + l + d)
  {
  }

  lemma PlacementRulesFramed(f: EventDraft, now: Instant, p: seq<ValidationError>, t: seq<ValidationError>,
                             l: seq<ValidationError>, d: seq<ValidationError>)
    requires EventCheckGroups(f, now, p, t, l, d)
    ensures ReportsPlacementRules(f, p + t + l + d)
  {
  }

  lemma DescriptionRuleFramed(f: EventDraft, now: Instant, p: seq<ValidationError>, t: seq<ValidationError>,
                              l: seq<ValidationError>, d: seq<ValidationError>)
    requires EventCheckGroups(f, now, p, t, l, d)
    ensures ReportsDescriptionRule(f.description, EventDescriptionRequired, p + t + l + d)
  {
  }

  lemma EventErrorKindsFramed(f: EventDraft, now: Instant, p: seq<ValidationError>, t: seq<ValidationError>,
                              l: seq<ValidationError>, d: seq<ValidationError>)
    requires EventCheckGroups(f, now, p, t, l, d)
    ensures forall e :: e in p + t + l + d ==> IsEventError(e)
  {
  }

  /** The submission passes exactly when each group of checks passes. */
  lemma EventAcceptanceFramed(f: EventDraft, now: Instant, p: seq<ValidationError>, t: seq<ValidationError>,
                              l: seq<ValidationError>, d: seq<ValidationError>)
    requires p == [] <==> PresencePasses(f, now)
    requires t == [] <==> TimingPasses(f, now)
    requires l == [] <==> PlacementPasses(f)
    requires d == [] <==> DescriptionPasses(f.description)
    ensures p + t + l + d == [] <==> AcceptableEvent(f, now)
  {
  }

  /** The four groups together report every rule, and only event errors, and pass exactly when each passes. */
  lemma EventChecksCombined(f: EventDraft, now: Instant, p: seq<ValidationError>, t: seq<ValidationError>,
                            l: seq<ValidationError>, d: seq<ValidationError>)
    requires EventCheckGroups(f, now, p, t, l, d)
    requires p == [] <==> PresencePasses(f, now)
    requires t == [] <==> TimingPasses(f, now)
    requires l == [] <==> PlacementPasses(f)
    requires d == [] <==> DescriptionPasses(f.description)
    ensures ReportsPresenceRules(f, now, p + t + l + d)
    ensures ReportsTimingRules(f, now, p + t + l + d)
    ensures ReportsPlacementRules(f, p + t + l + d)
    ensures ReportsDescriptionRule(f.description, EventDescriptionRequired, p + t + l + d)
    ensures forall e :: e in p + t + l + d ==> IsEventError(e)
    ensures p + t + l + d == [] <==> AcceptableEvent(f, now)
  {
    PresenceRulesFramed(f, now, p, t, l, d);
    TimingRulesFramed(f, now, p, t, l, d);
    PlacementRulesFramed(f, now, p, t, l, d);
    DescriptionRuleFramed(f, now, p, t, l, d);
    EventErrorKindsFramed(f, now, p, t, l, d);
    EventAcceptanceFramed(f, now, p, t, l, d);
  }

  /** What a well-formed event submission is, rule by rule. */
  ghost predicate AcceptableEvent(f: EventDraft, now: Instant) {
    && !Blank(f.title)
    && f.date.Some? && DayStart(f.date.value) >= now
    && f.startTime.Some? && f.endTime.Some?
    && At(f.date.value, f.startTime.value) >= now + DAY_MS
    && f.startTime.value < f.endTime.value
    && WithinOperatingHours(f.startTime.value) && WithinOperatingHours(f.endTime.value)
    && Filled(f.venue) && Filled(f.building)
    && f.staffCoordinator.Some?
    && DescriptionPasses(f.description)
  }

  /**
   * `validateEventSubmission`: every rule is checked and its error collected,
   * and the list is empty exactly for an acceptable submission.
   */
  function EventSubmissionErrors(f: EventDraft, now: Instant): (errors: seq<ValidationError>)
    ensures ReportsPresenceRules(f, now, errors)
    ensures ReportsTimingRules(f, now, errors)
    ensures ReportsPlacementRules(f, errors)
    ensures ReportsDescriptionRule(f.description, EventDescriptionRequired, errors)
    ensures forall e :: e in errors ==> IsEventError(e)
    ensures errors == [] <==> AcceptableEvent(f, now)
  {
    var presence := RequiredFieldErrors(f, now);
    var timing := TimeErrors(f, now);
    var placement := PlacementErrors(f);
    var description := DescriptionErrors(f.description, EventDescriptionRequired);
    EventChecksCombined(f, now, presence, timing, placement, description);
    presence + timing + placement + description
  }

  /** What a well-formed staff invite is, rule by rule. */
  ghost predicate AcceptableInvite(department: Option<string>, staff: Option<string>,
                                   role: Option<string>, description: Option<string>) {
    Filled(department) && Filled(staff) && !Blank(role) && DescriptionPasses(description)
  }

  function StaffInviteErrors(department: Option<string>, staff: Option<string>,
                             role: Option<string>, description: Option<string>): (errors: seq<ValidationError>)
    ensures DepartmentRequired in errors <==> !Filled(department)
    ensures StaffRequired in errors <==> !Filled(staff)
    ensures RoleRequired in errors <==> Blank(role)
    ensures DescriptionRequired in errors <==> Blank(description)
    ensures DescriptionTooShort in errors <==> !Blank(description) && |description.value| < MIN_DESCRIPTION_LENGTH
    ensures forall e :: e in errors ==> e.field in {Field.Department, Field.Staff, Field.Role, Field.Description}
    ensures errors == [] <==> AcceptableInvite(department, staff, role, description)
  {
    (if !Filled(department) then [DepartmentRequired] else [])
    + (if !Filled(staff) then [StaffRequired] else [])
    + (if TrimsToEmpty(role) then [RoleRequired] else [])
    + DescriptionErrors(description, DescriptionRequired)
  }

  /** What a well-formed ticket is, rule by rule. */
  ghost predicate AcceptableTicket(title: Option<string>, description: Option<string>,
                                   category: Option<TicketCategory>, priority: Option<TicketPriority>) {
    !Blank(title) && DescriptionPasses(description) && category.Some? && priority.Some?
  }

  function TicketErrors(title: Option<string>, description: Option<string>,
                        category: Option<TicketCategory>, priority: Option<TicketPriority>): (errors: seq<ValidationError>)
    ensures TicketTitleRequired in errors <==> Blank(title)
    ensures DescriptionRequired in errors <==> Blank(description)
    ensures DescriptionTooShort in errors <==> !Blank(description) && |description.value| < MIN_DESCRIPTION_LENGTH
    ensures CategoryRequired in errors <==> category.None?
    ensures PriorityRequired in errors <==> priority.None?
    ensures forall e :: e in errors ==> e.field in {Field.Title, Field.Description, Field.Category, Field.Priority}
    ensures errors == [] <==> AcceptableTicket(title, description, category, priority)
  {
    (if TrimsToEmpty(title) then [TicketTitleRequired] else [])
    + DescriptionErrors(description, DescriptionRequired)
    + (if category.None? then [CategoryRequired] else [])
    + (if priority.None? then [PriorityRequired] else [])
  }
}
