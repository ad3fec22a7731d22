/**
 * The group-count folds behind the analytics snapshot. Each source helper
 * reduces a collection into a dictionary (`acc[key] = (acc[key] || 0) + 1`)
 * and lists its entries in insertion order; here that is one loop over a map,
 * `CountBy`, proved equal to the specification `Tally`: one entry per distinct
 * key, in first-seen order, carrying the key's number of occurrences.
 */
module Analytics {
  import opened Wrappers
  import opened Types
  import opened Text
  import opened Queries

  /** The distinct elements of `s` in order of first occurrence. */
  function Distinct(s: seq<string>): (d: seq<string>)
    ensures forall x :: x in d <==> x in s
    ensures NoDuplicates(d)
  {
    if s == [] then []
    else
      var d := Distinct(s[..|s| - 1]);
      var x := s[|s| - 1];
      assert s == s[..|s| - 1] + [x];
      if x in d then d else d + [x]
  }

  predicate NoDuplicates(d: seq<string>) {
    forall i, j :: 0 <= i < j < |d| ==> d[i] != d[j]
  }

  /** One entry per key of `d`, counting its occurrences in `m`. */
  function Counted(d: seq<string>, m: multiset<string>): (g: seq<GroupCount>)
    ensures |g| == |d|
  {
    if d == [] then []
    else Counted(d[..|d| - 1], m) + [GroupCount(d[|d| - 1], m[d[|d| - 1]])]
  }

  /** The intended grouping: one entry per distinct key, in first-seen order, with its number of occurrences. */
  function Tally(keys: seq<string>): seq<GroupCount> {
    Counted(Distinct(keys), multiset(keys))
  }

  /** The sum of the counts of a group list. */
  function Total(g: seq<GroupCount>): nat {
    if g == [] then 0 else Total(g[..|g| - 1]) + g[|g| - 1].count
  }

  function Keys(g: seq<GroupCount>): seq<string> {
    if g == [] then [] else Keys(g[..|g| - 1]) + [g[|g| - 1].key]
  }

  lemma {:induction false} CountedShape(d: seq<string>, m: multiset<string>)
    ensures |Counted(d, m)| == |d|
    ensures Keys(Counted(d, m)) == d
    ensures forall j :: 0 <= j < |d| ==> Counted(d, m)[j] == GroupCount(d[j], m[d[j]])
  {
    CountedKeys(d, m);
    CountedEntries(d, m);
  }

  lemma {:induction false} CountedKeys(d: seq<string>, m: multiset<string>)
    ensures Keys(Counted(d, m)) == d
  {
    if d != [] {
      var p, x := d[..|d| - 1], d[|d| - 1];
      var g := Counted(d, m);
      CountedKeys(p, m);
      assert g[..|g| - 1] == Counted(p, m);
      assert g[|g| - 1].key == x;
      assert d == p + [x];
    }
  }

  lemma {:induction false} CountedEntries(d: seq<string>, m: multiset<string>)
    ensures forall j :: 0 <= j < |d| ==> Counted(d, m)[j] == GroupCount(d[j], m[d[j]])
  {
    if d != [] {
      var p := d[..|d| - 1];
      var g := Counted(d, m);
      CountedEntries(p, m);
      assert g == Counted(p, m) + [GroupCount(d[|d| - 1], m[d[|d| - 1]])];
      forall j | 0 <= j < |d| - 1
        ensures g[j] == GroupCount(d[j], m[d[j]])
      {
        assert g[j] == Counted(p, m)[j] && p[j] == d[j];
      }
    }
  }

  /** Each key of `keys` has exactly one entry, carrying its number of occurrences. */
  lemma TallyEntries(keys: seq<string>)
    ensures NoDuplicates(Keys(Tally(keys)))
    ensures forall k :: k in Keys(Tally(keys)) <==> k in keys
    ensures forall j :: 0 <= j < |Tally(keys)| ==> Tally(keys)[j].count == multiset(keys)[Tally(keys)[j].key]
  {
    CountedShape(Distinct(keys), multiset(keys));
  }

  lemma {:induction false} CountedAddPresent(d: seq<string>, m: multiset<string>, x: string)
    requires NoDuplicates(d) && x in d
    ensures Total(Counted(d, m + multiset{x})) == Total(Counted(d, m)) + 1
  {
    var p := d[..|d| - 1];
    assert d == p + [d[|d| - 1]];
    if d[|d| - 1] == x {
      assert x !in p;
      CountedAddAbsent(p, m, x);
    } else {
      CountedAddPresent(p, m, x);
    }
    assert Counted(d, m + multiset{x})[..|d| - 1] == Counted(p, m + multiset{x});
    assert Counted(d, m)[..|d| - 1] == Counted(p, m);
  }

  lemma {:induction false} CountedAddAbsent(d: seq<string>, m: multiset<string>, x: string)
    requires x !in d
    ensures Total(Counted(d, m + multiset{x})) == Total(Counted(d, m))
  {
    if d != [] {
      var p := d[..|d| - 1];
      assert d == p + [d[|d| - 1]];
      CountedAddAbsent(p, m, x);
      assert Counted(d, m + multiset{x})[..|d| - 1] == Counted(p, m + multiset{x});
      assert Counted(d, m)[..|d| - 1] == Counted(p, m);
    }
  }

  /** The counts of a grouping add up to the size of the collection. */
  lemma {:induction false} TallyTotal(keys: seq<string>)
    ensures Total(Tally(keys)) == |keys|
  {
    if keys != [] {
      var p := keys[..|keys| - 1];
      var x := keys[|keys| - 1];
      assert keys == p + [x];
      TallyTotal(p);
      var d := Distinct(p);
      if x in d {
        CountedAddPresent(d, multiset(p), x);
      } else {
        CountedAddAbsent(d, multiset(p), x);
        var g := Counted(d + [x], multiset(keys));
        assert (d + [x])[..|d|] == d;
        assert g[..|g| - 1] == Counted(d, multiset(keys));
      }
    }
  }

  /**
   * One fold step, as the reducer takes it: a key seen before has its count
   * raised in place, a new key is appended with count 1.
   */
  lemma TallyStep(keys: seq<string>, x: string)
    ensures x in keys ==> Keys(Tally(keys + [x])) == Keys(Tally(keys))
    ensures x !in keys ==> Tally(keys + [x]) == Tally(keys) + [GroupCount(x, 1)]
  {
    assert (keys + [x])[..|keys|] == keys;
    CountedShape(Distinct(keys), multiset(keys));
    CountedShape(Distinct(keys + [x]), multiset(keys + [x]));
    if x !in keys {
      var d := Distinct(keys);
      assert (d + [x])[..|d|] == d;
      CountedSameOff(d, multiset(keys), multiset(keys + [x]));
    }
  }

  lemma {:induction false} CountedSameOff(d: seq<string>, m1: multiset<string>, m2: multiset<string>)
    requires forall k :: k in d ==> m1[k] == m2[k]
    ensures Counted(d, m1) == Counted(d, m2)
  {
    if d != [] {
      CountedSameOff(d[..|d| - 1], m1, m2);
    }
  }

  /** `acc[key] = (acc[key] || 0) + 1` over `keys`, then the entries in insertion order. */
  method CountBy(keys: seq<string>) returns (groups: seq<GroupCount>)
    ensures groups == Tally(keys)
  {
    var counts: map<string, nat> := map[];
    var order: seq<string> := [];
    for i := 0 to |keys|
      invariant order == Distinct(keys[..i])
      invariant CountsOf(counts, keys[..i])
    {
      var k := keys[i];
      assert keys[..i + 1] == keys[..i] + [k];
      if k in counts {
        CountSeen(keys[..i], k, counts, order);
        counts := counts[k := counts[k] + 1];
      } else {
        CountNew(keys[..i], k, counts, order);
        counts := counts[k := 1];
        order := order + [k];
      }
    }
    assert keys[..|keys|] == keys;
    groups := Entries(order, counts, multiset(keys));
  }

  /** `counts` holds exactly the keys of `prefix`, each with its number of occurrences. */
  ghost predicate CountsOf(counts: map<string, nat>, prefix: seq<string>) {
    (forall k :: k in counts <==> k in prefix)
    && forall k :: k in counts ==> counts[k] == multiset(prefix)[k]
  }

  lemma CountSeen(prefix: seq<string>, k: string, counts: map<string, nat>, order: seq<string>)
    requires order == Distinct(prefix) && CountsOf(counts, prefix) && k in counts
    ensures order == Distinct(prefix + [k])
    ensures CountsOf(counts[k := counts[k] + 1], prefix + [k])
  {
    assert (prefix + [k])[..|prefix|] == prefix;
    var next, m := counts[k := counts[k] + 1], multiset(prefix + [k]);
    assert m == multiset(prefix) + multiset{k};
    forall x | x in next
      ensures next[x] == m[x]
    {
      if x != k {
        assert next[x] == counts[x];
      }
    }
  }

  lemma CountNew(prefix: seq<string>, k: string, counts: map<string, nat>, order: seq<string>)
    requires order == Distinct(prefix) && CountsOf(counts, prefix) && k !in counts
    ensures order + [k] == Distinct(prefix + [k])
    ensures CountsOf(counts[k := 1], prefix + [k])
  {
    assert (prefix + [k])[..|prefix|] == prefix;
    var next, m := counts[k := 1], multiset(prefix + [k]);
    assert m == multiset(prefix) + multiset{k};
    assert k !in prefix;
    forall x | x in next
      ensures next[x] == m[x]
    {
      if x != k {
        assert next[x] == counts[x];
      }
    }
  }

  /** `Object.entries(acc).map(...)`: one entry per key, in the order the keys were inserted. */
  method Entries(order: seq<string>, counts: map<string, nat>, ghost m: multiset<string>) returns (groups: seq<GroupCount>)
    requires forall k :: k in order ==> k in counts && counts[k] == m[k]
    ensures groups == Counted(order, m)
  {
    groups := [];
    for j := 0 to |order|
      invariant groups == Counted(order[..j], m)
    {
      assert order[..j + 1][..j] == order[..j];
      groups := groups + [GroupCount(order[j], counts[order[j]])];
    }
    assert order[..|order|] == order;
  }

  function ClubKey(e: Event): string {
    match e.club
    case None => "undefined"
    case Some(c) => c
  }

  function ClubKeys(events: seq<Event>): (r: seq<string>)
    ensures |r| == |events|
    ensures forall i :: 0 <= i < |events| ==> r[i] == ClubKey(events[i])
  {
    if events == [] then [] else [ClubKey(events[0])] + ClubKeys(events[1..])
  }

  function BuildingKeys(events: seq<Event>): (r: seq<string>)
    ensures |r| == |events|
    ensures forall i :: 0 <= i < |events| ==> r[i] == events[i].building
  {
    if events == [] then [] else [events[0].building] + BuildingKeys(events[1..])
  }

  function PriorityKeys(tickets: seq<Ticket>): (r: seq<string>)
    ensures |r| == |tickets|
    ensures forall i :: 0 <= i < |tickets| ==> r[i] == PriorityName(tickets[i].priority)
  {
    if tickets == [] then [] else [PriorityName(tickets[0].priority)] + PriorityKeys(tickets[1..])
  }

  function DepartmentKeys(invites: seq<StaffInvite>): (r: seq<string>)
    ensures |r| == |invites|
    ensures forall i :: 0 <= i < |invites| ==> r[i] == invites[i].department
  {
    if invites == [] then [] else [invites[0].department] + DepartmentKeys(invites[1..])
  }

  function StatusKeys(events: seq<Event>): (r: seq<string>)
    ensures |r| == |events|
    ensures forall i :: 0 <= i < |events| ==> r[i] == EventStatusName(events[i].status)
  {
    if events == [] then [] else [EventStatusName(events[0].status)] + StatusKeys(events[1..])
  }

  const MONTHS: seq<string> := ["January", "February", "March", "April", "May", "June",
                                "July", "August", "September", "October", "November", "December"]

  function MonthKeys(events: seq<Event>, monthOf: Day -> MonthIndex): (r: seq<string>)
    ensures |r| == |events|
    ensures forall i :: 0 <= i < |events| ==> r[i] == MONTHS[monthOf(events[i].date)]
  {
    if events == [] then [] else [MONTHS[monthOf(events[0].date)]] + MonthKeys(events[1..], monthOf)
  }

  /** The status entries with the first letter of each label upper-cased. */
  function Capitalized(g: seq<GroupCount>): (r: seq<GroupCount>)
    ensures |r| == |g|
    ensures forall j :: 0 <= j < |g| ==> r[j] == GroupCount(Capitalize(g[j].key), g[j].count)
  {
    if g == [] then [] else [GroupCount(Capitalize(g[0].key), g[0].count)] + Capitalized(g[1..])
  }

  /** `updateClubEventCount`: an event without a club is counted under "undefined". */
  method UpdateClubEventCount(events: seq<Event>) returns (groups: seq<GroupCount>)
    ensures groups == Tally(ClubKeys(events))
  {
    groups := CountBy(ClubKeys(events));
  }

  /** `updateBuildingUsage`. */
  method UpdateBuildingUsage(events: seq<Event>) returns (groups: seq<GroupCount>)
    ensures groups == Tally(BuildingKeys(events))
  {
    groups := CountBy(BuildingKeys(events));
  }

  /** `updateTicketsByPriority`. */
  method UpdateTicketsByPriority(tickets: seq<Ticket>) returns (groups: seq<GroupCount>)
    ensures groups == Tally(PriorityKeys(tickets))
  {
    groups := CountBy(PriorityKeys(tickets));
  }

  /** `updateInvitesByDepartment`. */
  method UpdateInvitesByDepartment(invites: seq<StaffInvite>) returns (groups: seq<GroupCount>)
    ensures groups == Tally(DepartmentKeys(invites))
  {
    groups := CountBy(DepartmentKeys(invites));
  }

  /** `updateEventsByStatus`: grouped by the lower-case status, then relabelled. */
  method UpdateEventsByStatus(events: seq<Event>) returns (groups: seq<GroupCount>)
    ensures groups == Capitalized(Tally(StatusKeys(events)))
  {
    var raw := CountBy(StatusKeys(events));
    groups := Capitalized(raw);
  }

  /** `updateMonthlyEventCount`, with the calendar month of each day supplied. */
  method UpdateMonthlyEventCount(events: seq<Event>, monthOf: Day -> MonthIndex) returns (groups: seq<GroupCount>)
    ensures groups == Tally(MonthKeys(events, monthOf))
  {
    groups := CountBy(MonthKeys(events, monthOf));
  }

  /**
   * Every label of the status grouping is the lower-case name of a status
   * some event has, with its first letter upper-cased.
   */
  lemma StatusLabels(events: seq<Event>)
    ensures forall j :: 0 <= j < |Capitalized(Tally(StatusKeys(events)))| ==>
      var shown := Capitalized(Tally(StatusKeys(events)))[j].key;
      shown != [] && 'A' <= shown[0] <= 'Z'
      && exists i :: 0 <= i < |events| && shown == Capitalize(EventStatusName(events[i].status))
  {
    var keys := StatusKeys(events);
    var g := Tally(keys);
    TallyEntries(keys);
    forall j | 0 <= j < |g|
      ensures var shown := Capitalize(g[j].key);
        shown != [] && 'A' <= shown[0] <= 'Z'
        && exists i :: 0 <= i < |events| && shown == Capitalize(EventStatusName(events[i].status))
    {
      KeysIndex(g, j);
      StatusLabelOf(events, g[j].key);
    }
  }

  lemma StatusLabelOf(events: seq<Event>, k: string)
    requires k in StatusKeys(events)
    ensures Capitalize(k) != [] && 'A' <= Capitalize(k)[0] <= 'Z'
    ensures exists i :: 0 <= i < |events| && Capitalize(k) == Capitalize(EventStatusName(events[i].status))
  {
    var keys := StatusKeys(events);
    var i :| 0 <= i < |keys| && keys[i] == k;
    StatusNameLowerCase(events[i].status);
    assert Capitalize(k)[0] == AsciiUpper(k[0]);
  }

  lemma {:induction false} KeysIndex(g: seq<GroupCount>, j: int)
    requires 0 <= j < |g|
    ensures g[j].key in Keys(g)
  {
    if j < |g| - 1 {
      KeysIndex(g[..|g| - 1], j);
    }
  }

  /** Relabelling keeps the counts, so the status grouping also adds up to the number of events. */
  lemma {:induction false} CapitalizedTotal(g: seq<GroupCount>)
    ensures Total(Capitalized(g)) == Total(g)
  {
    if g != [] {
      var p := g[..|g| - 1];
      CapitalizedTotal(p);
      assert Capitalized(g)[..|g| - 1] == Capitalized(p);
    }
  }

  /** `events.filter(e => e.status === 'pending').length`. */
  function PendingCount(events: seq<Event>): nat {
    |Filter(events, IsPendingEvent)|
  }

  /** The pending count agrees with the "pending" group of the status tally. */
  lemma {:induction false} PendingCountIsPendingGroup(events: seq<Event>)
    ensures PendingCount(events) == multiset(StatusKeys(events))["pending"]
  {
    if events != [] {
      PendingCountIsPendingGroup(events[1..]);
      assert StatusKeys(events) == [EventStatusName(events[0].status)] + StatusKeys(events[1..]);
      assert EventStatusName(events[0].status) == "pending" <==> IsPendingEvent(events[0]);
    }
  }

  /**
   * The snapshot `updateAnalytics` writes: every field is recomputed from the
   * three collections (the spread of the old snapshot is fully overwritten).
   */
  function Snapshot(events: seq<Event>, tickets: seq<Ticket>, invites: seq<StaffInvite>,
                    now: Instant, monthOf: Day -> MonthIndex): EventAnalytics {
    EventAnalytics(
      clubEvents := Tally(ClubKeys(events)),
      buildingUsage := Tally(BuildingKeys(events)),
      upcomingEvents := UpcomingEvents(events, now),
      totalEvents := |events|,
      pendingApprovals := PendingCount(events),
      ticketsByPriority := Tally(PriorityKeys(tickets)),
      invitesByDepartment := Tally(DepartmentKeys(invites)),
      eventsByStatus := Capitalized(Tally(StatusKeys(events))),
      monthlyEventCount := Tally(MonthKeys(events, monthOf)))
  }

  /** The body of `updateAnalytics`: each fold run over its collection, the queue sizes read off. */
  method Rebuild(events: seq<Event>, tickets: seq<Ticket>, invites: seq<StaffInvite>,
                 now: Instant, monthOf: Day -> MonthIndex) returns (a: EventAnalytics)
    ensures a == Snapshot(events, tickets, invites, now, monthOf)
  {
    var clubs := UpdateClubEventCount(events);
    var buildings := UpdateBuildingUsage(events);
    var priorities := UpdateTicketsByPriority(tickets);
    var departments := UpdateInvitesByDepartment(invites);
    var statuses := UpdateEventsByStatus(events);
    var months := UpdateMonthlyEventCount(events, monthOf);
    a := EventAnalytics(
      clubEvents := clubs,
      buildingUsage := buildings,
      upcomingEvents := UpcomingEvents(events, now),
      totalEvents := |events|,
      pendingApprovals := PendingCount(events),
      ticketsByPriority := priorities,
      invitesByDepartment := departments,
      eventsByStatus := statuses,
      monthlyEventCount := months);
  }

  /** A grouping of `keys`: distinct labels whose counts add up to the number of keys. */
  ghost predicate GroupsAll(g: seq<GroupCount>, n: nat) {
    NoDuplicates(Keys(g)) && Total(g) == n
  }

  lemma TallyGroupsAll(keys: seq<string>)
    ensures GroupsAll(Tally(keys), |keys|)
  {
    TallyEntries(keys);
    TallyTotal(keys);
  }

  /** The status grouping has one entry per status present and counts every event once. */
  lemma StatusGroupsAll(events: seq<Event>)
    ensures GroupsAll(Capitalized(Tally(StatusKeys(events))), |events|)
  {
    var keys := StatusKeys(events);
    var g := Tally(keys);
    TallyGroupsAll(keys);
    CapitalizedTotal(g);
    TallyEntries(keys);
    forall j | 0 <= j < |g|
      ensures g[j].key != [] && 'a' <= g[j].key[0] <= 'z'
    {
      KeysIndex(g, j);
      StatusKeyLowerCase(events, g[j].key);
    }
    CapitalizedKeepsApart(g);
  }

  lemma StatusKeyLowerCase(events: seq<Event>, k: string)
    requires k in StatusKeys(events)
    ensures k != [] && 'a' <= k[0] <= 'z'
  {
    var keys := StatusKeys(events);
    var i :| 0 <= i < |keys| && keys[i] == k;
    StatusNameLowerCase(events[i].status);
  }

  /** Upper-casing the first letter keeps lower-case labels apart. */
  lemma CapitalizedKeepsApart(g: seq<GroupCount>)
    requires NoDuplicates(Keys(g))
    requires forall j :: 0 <= j < |g| ==> g[j].key != [] && 'a' <= g[j].key[0] <= 'z'
    ensures NoDuplicates(Keys(Capitalized(g)))
  {
    var c := Capitalized(g);
    var kg, kc := Keys(g), Keys(c);
    KeysShape(g);
    KeysShape(c);
    assert |kg| == |g| == |c| == |kc|;
    forall i, j | 0 <= i < j < |kc|
      ensures kc[i] != kc[j]
    {
      assert kg[i] != kg[j];
      CapitalizeApart(g[i].key, g[j].key);
    }
  }

  lemma CapitalizeApart(a: string, b: string)
    requires a != b && a != [] && b != [] && 'a' <= a[0] <= 'z' && 'a' <= b[0] <= 'z'
    ensures Capitalize(a) != Capitalize(b)
  {
    if Capitalize(a) == Capitalize(b) {
      CapitalizeInjective(a, b);
    }
  }

  lemma StatusNameLowerCase(s: EventStatus)
    ensures EventStatusName(s) != [] && 'a' <= EventStatusName(s)[0] <= 'z'
  {
  }

  lemma PendingMatchesQueue(events: seq<Event>)
    ensures PendingCount(events) == |PendingApprovals(events)|
  {
    FilterCounts(events, IsPendingEvent);
    assert |multiset(PendingApprovals(events))| == |multiset(Filter(events, IsPendingEvent))|;
  }

  lemma {:induction false} KeysShape(g: seq<GroupCount>)
    ensures |Keys(g)| == |g|
    ensures forall j :: 0 <= j < |g| ==> Keys(g)[j] == g[j].key
  {
    if g != [] {
      KeysShape(g[..|g| - 1]);
    }
  }

  /** What `updateAnalytics` promises about the snapshot it writes. */
  lemma SnapshotCounts(events: seq<Event>, tickets: seq<Ticket>, invites: seq<StaffInvite>,
                       now: Instant, monthOf: Day -> MonthIndex)
    ensures Snapshot(events, tickets, invites, now, monthOf).totalEvents == |events|
    ensures Snapshot(events, tickets, invites, now, monthOf).pendingApprovals == |PendingApprovals(events)|
    ensures GroupsAll(Snapshot(events, tickets, invites, now, monthOf).clubEvents, |events|)
    ensures GroupsAll(Snapshot(events, tickets, invites, now, monthOf).buildingUsage, |events|)
    ensures GroupsAll(Snapshot(events, tickets, invites, now, monthOf).ticketsByPriority, |tickets|)
    ensures GroupsAll(Snapshot(events, tickets, invites, now, monthOf).invitesByDepartment, |invites|)
    ensures GroupsAll(Snapshot(events, tickets, invites, now, monthOf).eventsByStatus, |events|)
    ensures GroupsAll(Snapshot(events, tickets, invites, now, monthOf).monthlyEventCount, |events|)
    ensures forall j :: 0 <= j < |Snapshot(events, tickets, invites, now, monthOf).eventsByStatus| ==>
      var shown := Snapshot(events, tickets, invites, now, monthOf).eventsByStatus[j].key;
      shown != [] && 'A' <= shown[0] <= 'Z'
  {
    TallyGroupsAll(ClubKeys(events));
    TallyGroupsAll(BuildingKeys(events));
    TallyGroupsAll(PriorityKeys(tickets));
    TallyGroupsAll(DepartmentKeys(invites));
    TallyGroupsAll(MonthKeys(events, monthOf));
    StatusGroupsAll(events);
    StatusLabels(events);
    PendingMatchesQueue(events);
  }

  /**
   * Rebuilding twice over the same collections gives the same snapshot except
   * for the upcoming list, which is the only part that depends on the clock.
   */
  lemma SnapshotDependsOnClockOnlyThroughUpcoming(events: seq<Event>, tickets: seq<Ticket>, invites: seq<StaffInvite>,
                                                  now1: Instant, now2: Instant, monthOf: Day -> MonthIndex)
    ensures Snapshot(events, tickets, invites, now1, monthOf).(upcomingEvents := [])
         == Snapshot(events, tickets, invites, now2, monthOf).(upcomingEvents := [])
    ensures Snapshot(events, tickets, invites, now1, monthOf).upcomingEvents
         == UpcomingEvents(events, now1)
  {
  }

  /** A snapshot taken before a ticket was added no longer describes the tickets. */
  lemma SnapshotStaleAfterTicket(events: seq<Event>, tickets: seq<Ticket>, invites: seq<StaffInvite>,
                                 now: Instant, later: Instant, monthOf: Day -> MonthIndex, t: Ticket)
    ensures Snapshot(events, tickets, invites, now, monthOf) != Snapshot(events, tickets + [t], invites, later, monthOf)
  {
    TallyTotal(PriorityKeys(tickets));
    TallyTotal(PriorityKeys(tickets + [t]));
  }

  /** A snapshot taken before an invite was added no longer describes the invites. */
  lemma SnapshotStaleAfterInvite(events: seq<Event>, tickets: seq<Ticket>, invites: seq<StaffInvite>,
                                 now: Instant, later: Instant, monthOf: Day -> MonthIndex, v: StaffInvite)
    ensures Snapshot(events, tickets, invites, now, monthOf) != Snapshot(events, tickets, invites + [v], later, monthOf)
  {
    TallyTotal(DepartmentKeys(invites));
    TallyTotal(DepartmentKeys(invites + [v]));
  }
}
