# Event admission engine — a Dafny model

This project models the client-side store of a campus event-scheduling
dashboard. The store holds three collections (events, overlap tickets, staff
invites) and an analytics snapshot, and offers:

- three submission operations: `addEvent`, `addTicket` and `addStaffInvite`;
- the three validators they call;
- the venue conflict detector `checkOverlap`;
- the read-only `get*` queries;
- `updateAnalytics` with its six group-count folds.

Modules, one concept each:

- `Types` (types.dfy): the records and drafts, with discrete time.
  - A date is a day number.
  - A time of day is a count of minutes.
  - An instant is a count of milliseconds in the same local frame.
  - `At(d, t)` is what parsing `${date}T${time}` gives.
- `Text` (text.dfy): `String.prototype.trim`, and the `charAt(0).toUpperCase() + slice(1)` used for status labels.
- `Validation` (validation.dfy): the three validators of `src/utils/validation.ts`, as pure functions.
  - Each one returns the concatenation of the source's conditional pushes.
  - Each is proved rule by rule: a given error is in the list exactly when its rule fails, and the list is empty exactly when the submission is acceptable.
- `Overlap`: `checkOverlap`, the 24-hour gate followed by a `some` over half-open ranges, and the no-conflict invariant.
- `Queries`:
  - the `get*` projections, each a filter; the five queries the source sorts are then stably insertion-sorted on an integer key (the three club queries only filter);
  - proofs of filtering (multiset counts), ordering and stability.
- `Analytics`:
  - the group-count fold, written as a loop over a map plus a first-seen key order (`CountBy`);
  - the six `update*` helpers, proved equal to `Tally` (the status fold to its `Capitalized` relabelling);
  - the full snapshot `updateAnalytics` writes, with its counting properties.
- `Store`: the store as a class `EventStore`.
  - It has fields `events`, `tickets`, `staffInvites` and `analytics`.
  - Its methods update those fields in place.
  - Its invariant `Valid()` says that every event was admitted against the ones before it. `BookedHasNoConflicts` turns that into "no two events at one venue on one date intersect".
- `ObjectRecord`: the folds as literally written, over a plain JavaScript object. This is the object of the finding below.

The current time and the id `Date.now().toString()` would produce are parameters of every operation that reads them. The calendar month of a day, which `new Date(date).getMonth()` reads in the local time zone, is a function `monthOf` given to the store when it is constructed.

## Model

| member | source | states |
|---|---|---|
| Text.Trim | src/utils/validation.ts:9 | `trim()` is no longer than its input and neither starts nor ends with white space |
| Text.Capitalize | src/store/eventStore.ts:367 | `charAt(0).toUpperCase() + slice(1)`: same length, the first character upper-cased (ASCII), the rest unchanged |
| Text.TrimEmptyIffBlank | src/utils/validation.ts:9 | `!s.trim()` holds exactly when every character of `s` is white space |
| Validation.DescriptionErrors | src/utils/validation.ts:87-98 | "required" exactly when the description is absent or blank; otherwise "too short" exactly when the untrimmed length is under 50; never both; empty exactly when present, not blank and at least 50 long |
| Validation.RequiredFieldErrors | src/utils/validation.ts:8-28 | each of title (blank after trim), date (absent), the date's midnight before now, start time and end time (absent) is reported exactly when its rule fails; only these kinds; empty exactly when all five pass |
| Validation.TimeErrors | src/utils/validation.ts:30-68 | only when both times are given: the notice error exactly when a dated start is under 24 h from now; the end-time error exactly when the end is not after the start or the date is missing (invalid combined timestamps); each operating-hours error exactly when that time's hour is outside 9..17; empty exactly when all hold |
| Validation.Combine | src/utils/validation.ts:32-33 | parsing `${date}T${time}` is valid exactly when the date is present, and then falls within that date's day |
| Validation.CombinedOrderIsTimeOrder | src/utils/validation.ts:44 | on one valid date, `isAfter(end, start)` holds exactly when the end time is later; on a missing date it never holds |
| Validation.IsBefore | src/utils/validation.ts:17 | definition (no contract of its own): `isBefore` is false when its first date is invalid; its use is stated by `RequiredFieldErrors` and `TimeErrors` |
| Validation.IsAfter | src/utils/validation.ts:44 | definition (no contract of its own): `isAfter` is false when either date is invalid; `CombinedOrderIsTimeOrder` states what it compares |
| Validation.PlacementErrors | src/utils/validation.ts:70-85 | venue, building and staff-coordinator errors each exactly when that field is missing or empty; empty exactly when all are present |
| Validation.EventChecksCombined | src/utils/validation.ts:4-101 | concatenating the four groups of checks keeps every rule's if-and-only-if, reports only event errors, and is empty exactly when each group is |
| Validation.EventSubmissionErrors | src/utils/validation.ts:4-101 | `validateEventSubmission`: every rule of the event form reported exactly when it fails (all checks accumulated, none short-circuits), only event errors, and an empty list exactly for an acceptable submission |
| Validation.StaffInviteErrors | src/utils/validation.ts:103-145 | `validateStaffInvite`: department and staff errors exactly when empty, role error exactly when blank after trim, the exclusive required-or-short description rule; only the four fields; empty exactly when acceptable |
| Validation.TicketErrors | src/utils/validation.ts:147-189 | `validateTicket`: title blank, the description rule, category and priority missing, each exactly when it fails; only the four fields; empty exactly when acceptable |
| Overlap.TooLittleNotice | src/store/eventStore.ts:264-273 | the real-valued `hoursDiff < 24` test is the same as the whole-millisecond test `start < now + 24 h` |
| Overlap.Blocks | src/store/eventStore.ts:275-284 | the callback of `some` holds exactly when the event is at the same venue on the same date and its half-open range intersects the slot's |
| Overlap.SomeBlocks | src/store/eventStore.ts:275-284 | `events.some(...)` on combined timestamps is true exactly when some event has the same venue, the same date and an intersecting half-open minute range |
| Overlap.CheckOverlap | src/store/eventStore.ts:262-285 | blocked whenever the start is under 24 h away, whatever the collection; past that gate, blocked exactly when some event at the same venue on the same date has an intersecting half-open range |
| Overlap.ClashesSymmetric | src/store/eventStore.ts:283 | the intersection test is symmetric in the two slots |
| Overlap.AdmissionKeepsNoVenueConflicts | src/store/eventStore.ts:126-148 | appending a slot the detector let through keeps the collection free of venue conflicts |
| Overlap.OtherSlotsNeverBlock | src/store/eventStore.ts:276 | events at another venue or on another date never block |
| Overlap.BackToBackNeverBlocks | src/store/eventStore.ts:283 | adding an event that ends exactly when the slot starts, or starts exactly when it ends, never changes the verdict, at any time and whatever the other events |
| Overlap.StatusNeverConsulted | src/store/eventStore.ts:275-284 | two collections that differ only in event status get the same verdict |
| Queries.Filter | src/store/eventStore.ts:213 | `Array.filter`: no longer than its input, every element kept passes |
| Queries.FilterCounts | src/store/eventStore.ts:213 | a filter keeps every occurrence of a passing element and none of a failing one |
| Queries.FilterAppend | src/store/eventStore.ts:213 | a filter preserves order: filtering a concatenation concatenates the filtered parts |
| Queries.SortBy | src/store/eventStore.ts:231 | the sort is ordered by its key and a permutation of its input |
| Queries.InsertCounts | src/store/eventStore.ts:231 | one insertion step adds exactly the inserted element |
| Queries.InsertSorted | src/store/eventStore.ts:231 | one insertion step keeps the list ordered |
| Queries.InsertWithKey | src/store/eventStore.ts:231 | one insertion step keeps the elements sharing a key in their order |
| Queries.SortByStable | src/store/eventStore.ts:231 | the sort is stable: the elements sharing any key keep their original relative order |
| Queries.EventsByClub | src/store/eventStore.ts:212-214 | `getEventsByClub`: exactly the club's events, each as often as in the store |
| Queries.TicketsByClub | src/store/eventStore.ts:216-218 | `getTicketsByClub`: exactly the club's tickets, each as often as in the store |
| Queries.InvitesByClub | src/store/eventStore.ts:220-222 | `getInvitesByClub`: exactly the club's invites, each as often as in the store |
| Queries.EventsByClubAppend | src/store/eventStore.ts:212-214 | the club's events after an append are the earlier ones followed by the new event when it is the club's, in store order |
| Queries.TicketsByClubAppend | src/store/eventStore.ts:216-218 | the club's tickets after an append are the earlier ones followed by the new ticket when it is the club's |
| Queries.InvitesByClubAppend | src/store/eventStore.ts:220-222 | the club's invites after an append are the earlier ones followed by the new invite when it is the club's |
| Queries.UpcomingEvents | src/store/eventStore.ts:224-232 | `getUpcomingEvents`: exactly the approved events whose start is not past, earliest date first |
| Queries.UpcomingEventsStable | src/store/eventStore.ts:231 | upcoming events on one date keep the order they were added in |
| Queries.PastEvents | src/store/eventStore.ts:234-242 | `getPastEvents`: exactly the approved events whose start is past, latest date first |
| Queries.PendingApprovals | src/store/eventStore.ts:244-248 | `getPendingApprovals`: exactly the pending events, most recently created first |
| Queries.PendingApprovalsStable | src/store/eventStore.ts:247 | pending events created at the same instant keep the order they were added in |
| Queries.ApprovedEvents | src/store/eventStore.ts:250-254 | `getApprovedEvents`: exactly the approved events, most recently updated first |
| Queries.InvitesByCategory | src/store/eventStore.ts:256-260 | `getInvitesByCategory`: exactly the invites of the category, most recently created first |
| Analytics.Distinct | src/store/eventStore.ts:318 | the keys of a fold, in first-seen order: the same members as the input, without duplicates |
| Analytics.Tally | src/store/eventStore.ts:312-322 | definition (no contract of its own): the intended grouping, one entry per distinct key in first-seen order with its number of occurrences; `TallyEntries` and `TallyTotal` state its properties |
| Analytics.CountBy | src/store/eventStore.ts:312-322 | the reduce into a fresh dictionary followed by `Object.entries` equals `Tally`: one entry per distinct key, in first-seen order, carrying its number of occurrences |
| Analytics.CountSeen | src/store/eventStore.ts:314 | `acc[k] = (acc[k] \|\| 0) + 1` on a key already present adds one to its count and keeps the key order |
| Analytics.CountNew | src/store/eventStore.ts:314 | the same step on a new key records it with count 1 and appends it to the key order |
| Analytics.Entries | src/store/eventStore.ts:318-321 | `Object.entries(acc).map(...)` lists one entry per key, in insertion order, with the count the dictionary holds |
| Analytics.CountedShape | src/store/eventStore.ts:318-321 | the tally has one entry per listed key, in that order, each carrying that key's count |
| Analytics.TallyEntries | src/store/eventStore.ts:312-322 | every key of a grouping occurs once; the grouping's keys are exactly the input's keys; each count is that key's number of occurrences |
| Analytics.TallyTotal | src/store/eventStore.ts:312-322 | the counts of a grouping add up to the size of the collection |
| Analytics.TallyStep | src/store/eventStore.ts:313-316 | one fold step: a seen key keeps the key list, a new key appends `(key, 1)` |
| Analytics.TallyGroupsAll | src/store/eventStore.ts:312-386 | every fold yields distinct keys whose counts sum to the collection size |
| Analytics.ClubKeys | src/store/eventStore.ts:314 | the club key of each event, with "undefined" for an event without a club (JavaScript key coercion) |
| Analytics.BuildingKeys | src/store/eventStore.ts:326 | one key per event, in order: its building |
| Analytics.PriorityKeys | src/store/eventStore.ts:338 | one key per ticket, in order: its lower-case priority name |
| Analytics.DepartmentKeys | src/store/eventStore.ts:350 | one key per invite, in order: its department |
| Analytics.StatusKeys | src/store/eventStore.ts:362 | one key per event, in order: its lower-case status name |
| Analytics.MonthKeys | src/store/eventStore.ts:373-378 | the English month name of each event's date |
| Analytics.UpdateClubEventCount | src/store/eventStore.ts:312-322 | `updateClubEventCount` is the tally of the events' club keys |
| Analytics.UpdateBuildingUsage | src/store/eventStore.ts:324-334 | `updateBuildingUsage` is the tally of the events' buildings |
| Analytics.UpdateTicketsByPriority | src/store/eventStore.ts:336-346 | `updateTicketsByPriority` is the tally of the tickets' lower-case priorities |
| Analytics.UpdateInvitesByDepartment | src/store/eventStore.ts:348-358 | `updateInvitesByDepartment` is the tally of the invites' departments |
| Analytics.UpdateEventsByStatus | src/store/eventStore.ts:360-370 | `updateEventsByStatus` is the tally of the lower-case statuses with each label capitalised |
| Analytics.UpdateMonthlyEventCount | src/store/eventStore.ts:372-386 | `updateMonthlyEventCount` is the tally of the events' month names |
| Analytics.Capitalized | src/store/eventStore.ts:366-369 | relabelling keeps every count and upper-cases the first letter of each label |
| Analytics.StatusLabels | src/store/eventStore.ts:360-370 | every status label starts with an upper-case letter and is the capitalised name of a status some event has |
| Analytics.StatusGroupsAll | src/store/eventStore.ts:360-370 | the capitalised status grouping still has distinct labels and counts every event once |
| Analytics.CapitalizedKeepsApart | src/store/eventStore.ts:367 | capitalising lower-case labels keeps distinct labels distinct |
| Analytics.CapitalizedTotal | src/store/eventStore.ts:366-369 | relabelling keeps the total count |
| Analytics.PendingCount | src/store/eventStore.ts:302 | definition (no contract of its own): the length of the pending filter; `PendingCountIsPendingGroup` and `PendingMatchesQueue` state what it counts |
| Analytics.Snapshot | src/store/eventStore.ts:295-308 | definition (no contract of its own): the nine fields `updateAnalytics` writes; `SnapshotCounts` and `SnapshotDependsOnClockOnlyThroughUpcoming` state its properties |
| Analytics.PendingCountIsPendingGroup | src/store/eventStore.ts:302 | the pending count equals the number of events whose status key is "pending" |
| Analytics.PendingMatchesQueue | src/store/eventStore.ts:244-248 | the pending count equals the length of the pending-approvals list |
| Analytics.Rebuild | src/store/eventStore.ts:295-308 | the snapshot the six folds, the upcoming query and the two counts assemble is `Snapshot` of the three collections |
| Analytics.SnapshotCounts | src/store/eventStore.ts:287-309 | after a rebuild: `totalEvents` is the number of events; `pendingApprovals` is the number of pending events; all six groupings have distinct keys whose counts sum to their collection's size; every status label starts upper-case |
| Analytics.SnapshotDependsOnClockOnlyThroughUpcoming | src/store/eventStore.ts:287-309 | two rebuilds over the same collections agree except for the upcoming list, which is the upcoming query at each rebuild's time |
| Analytics.SnapshotStaleAfterTicket | src/store/eventStore.ts:155-181 | after a ticket is appended, the earlier snapshot no longer describes the collections |
| Analytics.SnapshotStaleAfterInvite | src/store/eventStore.ts:183-210 | after an invite is appended, the earlier snapshot no longer describes the collections |
| Store.AdmittedEvent | src/store/eventStore.ts:138-144 | the appended event: the caller's id if it gave one, else the generated one; status pending; both stamps are now; every other field the caller's; a well-formed slot at least 24 h ahead |
| Store.AdmittedTicket | src/store/eventStore.ts:168-173 | the appended ticket: the caller's id overrides the generated one; status pending; created now; the rest the caller's |
| Store.AdmittedInvite | src/store/eventStore.ts:196-202 | the appended invite: the caller's id overrides the generated one; status and category pending; created now; the rest the caller's |
| Store.BookedHasNoConflicts | src/store/eventStore.ts:126-148 | the store invariant implies that no two events at one venue on one date intersect, and that every slot is well formed |
| Store.AppendKeepsBooked | src/store/eventStore.ts:126-148 | a well-formed slot the detector let through keeps the invariant once appended |
| Store.AdmissionKeepsBooked | src/store/eventStore.ts:120-148 | an event `addEvent` admits keeps the invariant |
| Store.ValidatedDraftPassesNoticeGate | src/store/eventStore.ts:264-273 | a draft that passed validation also passes the detector's notice gate, so the detector then only looks for clashes (the notice rule is enforced twice) |
| Store.InitialAnalyticsIsMock | src/store/eventStore.ts:83-117 | the hard-coded starting snapshot differs from a rebuild over the seed collections, at any time |
| Store.EventStore.constructor | src/store/eventStore.ts:28-117 | the store starts with one seed event, ticket and invite and the mock snapshot, and satisfies the invariant |
| Store.EventStore.UpdateAnalytics | src/store/eventStore.ts:287-309 | `updateAnalytics` writes the full rebuild of the current collections and changes nothing else |
| Store.EventStore.AddEvent | src/store/eventStore.ts:119-153 | `addEvent` keeps the invariant and succeeds exactly when validation passes and the detector does not block; on success exactly one admitted event is appended and the snapshot is rebuilt; on failure events and analytics are unchanged |
| Store.EventStore.AddTicket | src/store/eventStore.ts:155-181 | `addTicket` succeeds exactly when the ticket validates; on success exactly one admitted ticket is appended; nothing else changes (no overlap check, no rebuild) |
| Store.EventStore.AddStaffInvite | src/store/eventStore.ts:183-210 | `addStaffInvite` succeeds exactly when the invite validates, with the draft's `staffId` as the staff member; on success exactly one admitted invite is appended; nothing else changes |
| ObjectRecord.Bump | src/store/eventStore.ts:314 | one step on a plain object: no own property is lost, only the given key can be added, and it is added unless it is "__proto__", which leaves the object unchanged |
| ObjectRecord.Reduce | src/store/eventStore.ts:313-316 | the reduce from `{}` has an own property for every input key except "__proto__", and no other |
| ObjectRecord.EntriesOf | src/store/eventStore.ts:318-321 | `Object.entries`: one entry per own property, in creation order, carrying the value held |
| ObjectRecord.GroupAsWritten | src/store/eventStore.ts:312-322 | the grouping as written names only input keys, and never "__proto__" |
| ObjectRecord.ProtoKeyIsDropped | src/store/eventStore.ts:312-322 | as written, a single key "__proto__" yields no entry, where the intended tally has one |
| ObjectRecord.InheritedKeyIsNotANumber | src/store/eventStore.ts:312-322 | as written, a single key "toString" yields an entry whose count is not a number |
| ObjectRecord.AsWrittenAgreesOffPrototype | src/store/eventStore.ts:312-386 | when no key is an inherited property name, the folds as written give exactly the intended tally |

The lemmas `Validation.PresenceRulesFramed`, `TimingRulesFramed`, `PlacementRulesFramed`, `DescriptionRuleFramed`, `EventErrorKindsFramed` and `EventAcceptanceFramed` are proof steps of `EventChecksCombined`, so they have no rows of their own.

## Left out

- Clock reads: the source reads the clock several times per call (validation, detector, stamps, the upcoming query). The model takes one `now` per store operation.
- Date parsing: date-fns parsing and JavaScript `Date` parsing are not modelled. Dates and times are assumed to be well-formed "YYYY-MM-DD" and "HH:MM" strings, held as numbers. An unparseable string is not modelled; only a missing date is, as an invalid combined timestamp.
- Months and time zones: the local-time-zone reading of `new Date(event.date).getMonth()` is the injected `monthOf`. The date-only sort keys (`new Date(a.date)`, parsed as UTC) are taken as the day number. Daylight-saving shifts are not modelled.
- Falsy values: an absent field and the empty string are both `None` for the fields the validators test, because both are falsy. The unvalidated `club` keeps `None` and `Some("")` apart.
- `Date.now().toString()`: the generated id is a parameter.
- String lengths: `description.length` counts UTF-16 code units. The model counts characters, which agree for text without astral characters.
- Capitalisation: `toUpperCase` is modelled on ASCII letters only. That is all the status names need.
- Key order of `Object.entries`: it lists integer-like keys (a club or department named "42", say) before the others in ascending order. The model keeps insertion order for every key.
- Notifications: `showErrorMessage` and `showSuccessMessage` are not modelled. The zustand `set`/`get` machinery and the `async`/`Promise<boolean>` wrappers are not modelled either; the store is a class with synchronous methods.
- The UI components, the mock login and the static venue data are not part of this model.
- Store.EventStore.AddEvent: it returns a boolean, as the source does, not the `Result` carrying the errors that a reimplementation might return.
- Store.EventStore.AddTicket and Store.EventStore.AddStaffInvite: the analytics are not rebuilt after them, because the source does not rebuild them there (only `addEvent` calls `updateAnalytics`). `SnapshotStaleAfterTicket` and `SnapshotStaleAfterInvite` show that the snapshot is then stale.
- Store.AdmittedEvent, Store.AdmittedTicket and Store.AdmittedInvite: an id the caller supplies overrides the generated one, as the spread order in the source makes it, so ids are not guaranteed fresh. An `id` key explicitly set to `undefined` in the draft is not distinguished from an absent one.
- Seed stamps: the seed records' `createdAt` "2025-03-20T10:00:00Z" is a UTC instant; the model reads it as 10:00 local time, like every other instant. Outside UTC this only shifts how the seed ticket and invite are ordered against new ones by `createdAt`.
- Store.InitialAnalyticsIsMock: the seed snapshot is the literal mock data. Its priority labels are capitalised ("High"), unlike the lower-case ones a rebuild produces.
- Analytics.CountBy and the folds built on it model the intended dictionary that starts empty; the object-literal behaviour is in `ObjectRecord` (see Findings).

## Findings

| source | as written | input that shows it | evidently intended | confidence | as-written member | corrected member |
|---|---|---|---|---|---|---|
| src/store/eventStore.ts:312-386 | each fold accumulates into the object literal `{}`, so `acc[key]` also finds the properties inherited from `Object.prototype`, and assigning `acc["__proto__"]` goes to the prototype setter | an event whose club is "__proto__" is not counted at all; a department named "toString" is counted as the string `"function toString() { [native code] }1"` | one entry per distinct key with its number of occurrences, for every key (a dictionary with no inherited properties) | not executed | ObjectRecord.ProtoKeyIsDropped, ObjectRecord.InheritedKeyIsNotANumber | Analytics.CountBy, Analytics.TallyTotal |
