/**
 * The read-only projections of the store: each is a filter over a collection
 * followed, for some, by a stable sort on an integer key (a descending order is
 * the ascending order of the negated key, which keeps ties in insertion order
 * just as a stable comparator sort does).
 */
module Queries {
  import opened Wrappers
  import opened Types

  /** `s.filter(p)`. */
  function Filter<T(==,!new)>(s: seq<T>, p: T -> bool): (r: seq<T>)
    ensures |r| <= |s|
    ensures forall i :: 0 <= i < |r| ==> p(r[i])
  {
    if s == [] then []
    else
      var rest := Filter(s[1..], p);
      if p(s[0]) then [s[0]] + rest else rest
  }

  /** Filtering keeps every occurrence of the elements that pass and none of the rest. */
  lemma {:induction false} FilterCounts<T(!new)>(s: seq<T>, p: T -> bool)
    ensures forall x :: multiset(Filter(s, p))[x] == if p(x) then multiset(s)[x] else 0
  {
    if s != [] {
      assert s == [s[0]] + s[1..];
      FilterCounts(s[1..], p);
    }
  }

  /** Filtering a collection with one more element at the end keeps the old result as a prefix. */
  lemma {:induction false} FilterAppend<T(!new)>(s: seq<T>, x: T, p: T -> bool)
    ensures Filter(s + [x], p) == Filter(s, p) + (if p(x) then [x] else [])
  {
    if s == [] {
      assert [x][1..] == [];
    } else {
      assert (s + [x])[1..] == s[1..] + [x];
      FilterAppend(s[1..], x, p);
    }
  }

  ghost predicate SortedBy<T>(s: seq<T>, key: T -> int) {
    forall i, j :: 0 <= i < j < |s| ==> key(s[i]) <= key(s[j])
  }

  ghost predicate AllAtLeast<T>(s: seq<T>, key: T -> int, b: int) {
    forall i :: 0 <= i < |s| ==> b <= key(s[i])
  }

  lemma SortedCons<T>(a: T, s: seq<T>, key: T -> int)
    requires AllAtLeast(s, key, key(a)) && SortedBy(s, key)
    ensures SortedBy([a] + s, key)
  {
    forall i, j | 0 <= i < j < |[a] + s|
      ensures key(([a] + s)[i]) <= key(([a] + s)[j])
    {
      if i > 0 {
        assert ([a] + s)[i] == s[i - 1];
      }
      assert ([a] + s)[j] == s[j - 1];
    }
  }

  /** Inserts `x` before the first element whose key is not smaller. */
  function Insert<T>(x: T, s: seq<T>, key: T -> int): (r: seq<T>)
    ensures |r| == |s| + 1
  {
    if s == [] || key(x) <= key(s[0]) then [x] + s
    else [s[0]] + Insert(x, s[1..], key)
  }

  lemma {:induction false} InsertCounts<T(!new)>(x: T, s: seq<T>, key: T -> int)
    ensures multiset(Insert(x, s, key)) == multiset(s) + multiset{x}
  {
    if s != [] && key(x) > key(s[0]) {
      assert s == [s[0]] + s[1..];
      InsertCounts(x, s[1..], key);
    }
  }

  lemma {:induction false} InsertBound<T>(x: T, s: seq<T>, key: T -> int, b: int)
    requires AllAtLeast(s, key, b) && b <= key(x)
    ensures AllAtLeast(Insert(x, s, key), key, b)
  {
    if s != [] && key(x) > key(s[0]) {
      InsertBound(x, s[1..], key, b);
    }
  }

  lemma {:induction false} InsertSorted<T>(x: T, s: seq<T>, key: T -> int)
    requires SortedBy(s, key)
    ensures SortedBy(Insert(x, s, key), key)
  {
    if s == [] || key(x) <= key(s[0]) {
      SortedCons(x, s, key);
    } else {
      InsertSorted(x, s[1..], key);
      InsertBound(x, s[1..], key, key(s[0]));
      SortedCons(s[0], Insert(x, s[1..], key), key);
    }
  }

  /** A stable sort by ascending `key`. */
  function SortBy<T(!new)>(s: seq<T>, key: T -> int): (r: seq<T>)
    ensures SortedBy(r, key)
    ensures multiset(r) == multiset(s)
  {
    if s == [] then []
    else
      var rest := SortBy(s[1..], key);
      InsertSorted(s[0], rest, key);
      InsertCounts(s[0], rest, key);
      assert s == [s[0]] + s[1..];
      Insert(s[0], rest, key)
  }

  /** The elements whose key is `v`, in order. */
  function WithKey<T>(s: seq<T>, key: T -> int, v: int): seq<T> {
    if s == [] then []
    else (if key(s[0]) == v then [s[0]] else []) + WithKey(s[1..], key, v)
  }

  lemma WithKeyCons<T>(a: T, t: seq<T>, key: T -> int, v: int)
    ensures WithKey([a] + t, key, v) == (if key(a) == v then [a] else []) + WithKey(t, key, v)
  {
    assert ([a] + t)[1..] == t;
  }

  lemma {:induction false} InsertWithKey<T>(x: T, s: seq<T>, key: T -> int, v: int)
    ensures WithKey(Insert(x, s, key), key, v) == (if key(x) == v then [x] else []) + WithKey(s, key, v)
  {
    if s == [] || key(x) <= key(s[0]) {
      WithKeyCons(x, s, key, v);
    } else {
      var rest := Insert(x, s[1..], key);
      assert s == [s[0]] + s[1..];
      WithKeyCons(s[0], rest, key, v);
      WithKeyCons(s[0], s[1..], key, v);
      InsertWithKey(x, s[1..], key, v);
      if key(s[0]) == v {
        assert key(x) != v;
      }
    }
  }

  /** Stability: the elements sharing any one key keep their original relative order. */
  lemma {:induction false} SortByStable<T(!new)>(s: seq<T>, key: T -> int, v: int)
    ensures WithKey(SortBy(s, key), key, v) == WithKey(s, key, v)
  {
    if s != [] {
      SortByStable(s[1..], key, v);
      InsertWithKey(s[0], SortBy(s[1..], key), key, v);
    }
  }

  predicate IsPast(t: Instant, now: Instant) {
    t < now
  }

  /** `getEventsByClub`: the club's events in insertion order. */
  function EventsByClub(events: seq<Event>, club: string): (r: seq<Event>)
    ensures forall e :: multiset(r)[e] == if e.club == Some(club) then multiset(events)[e] else 0
  {
    var p := (e: Event) => e.club == Some(club);
    FilterCounts(events, p);
    Filter(events, p)
  }

  /** `getTicketsByClub`. */
  function TicketsByClub(tickets: seq<Ticket>, club: string): (r: seq<Ticket>)
    ensures forall t :: multiset(r)[t] == if t.club == Some(club) then multiset(tickets)[t] else 0
  {
    var p := (t: Ticket) => t.club == Some(club);
    FilterCounts(tickets, p);
    Filter(tickets, p)
  }

  /** `getInvitesByClub`. */
  function InvitesByClub(invites: seq<StaffInvite>, club: string): (r: seq<StaffInvite>)
    ensures forall v :: multiset(r)[v] == if v.club == Some(club) then multiset(invites)[v] else 0
  {
    var p := (v: StaffInvite) => v.club == Some(club);
    FilterCounts(invites, p);
    Filter(invites, p)
  }

  /** The club queries keep insertion order: a record added later is listed after the earlier ones. */
  lemma EventsByClubAppend(events: seq<Event>, e: Event, club: string)
    ensures EventsByClub(events + [e], club)
         == EventsByClub(events, club) + (if e.club == Some(club) then [e] else [])
  {
    FilterAppend(events, e, (x: Event) => x.club == Some(club));
  }

  lemma TicketsByClubAppend(tickets: seq<Ticket>, t: Ticket, club: string)
    ensures TicketsByClub(tickets + [t], club)
         == TicketsByClub(tickets, club) + (if t.club == Some(club) then [t] else [])
  {
    FilterAppend(tickets, t, (x: Ticket) => x.club == Some(club));
  }

  lemma InvitesByClubAppend(invites: seq<StaffInvite>, v: StaffInvite, club: string)
    ensures InvitesByClub(invites + [v], club)
         == InvitesByClub(invites, club) + (if v.club == Some(club) then [v] else [])
  {
    FilterAppend(invites, v, (x: StaffInvite) => x.club == Some(club));
  }

  /** Approved and not yet started. */
  predicate IsUpcoming(e: Event, now: Instant) {
    !IsPast(At(e.date, e.startTime), now) && e.status == EventStatus.Approved
  }

  /** Approved and already started: the start instant, not the end, is compared with now. */
  predicate HasStarted(e: Event, now: Instant) {
    IsPast(At(e.date, e.startTime), now) && e.status == EventStatus.Approved
  }

  /** `getUpcomingEvents`: approved events not yet started, earliest date first. */
  function UpcomingEvents(events: seq<Event>, now: Instant): (r: seq<Event>)
    ensures forall e :: multiset(r)[e] == if IsUpcoming(e, now) then multiset(events)[e] else 0
    ensures forall i, j :: 0 <= i < j < |r| ==> r[i].date <= r[j].date
  {
    var p := (e: Event) => IsUpcoming(e, now);
    FilterCounts(events, p);
    SortBy(Filter(events, p), EventDay)
  }

  function EventDay(e: Event): int {
    e.date
  }

  /** Upcoming events on the same day are listed in the order they were added. */
  lemma UpcomingEventsStable(events: seq<Event>, now: Instant, d: Day)
    ensures WithKey(UpcomingEvents(events, now), EventDay, d)
         == WithKey(Filter(events, (e: Event) => IsUpcoming(e, now)), EventDay, d)
  {
    var upcoming := Filter(events, (e: Event) => IsUpcoming(e, now));
    assert UpcomingEvents(events, now) == SortBy(upcoming, EventDay);
    SortByStable(upcoming, EventDay, d);
  }

  /** `getPastEvents`: approved events already started, latest date first. */
  function PastEvents(events: seq<Event>, now: Instant): (r: seq<Event>)
    ensures forall e :: multiset(r)[e] == if HasStarted(e, now) then multiset(events)[e] else 0
    ensures forall i, j :: 0 <= i < j < |r| ==> r[i].date >= r[j].date
  {
    var p := (e: Event) => HasStarted(e, now);
    FilterCounts(events, p);
    SortBy(Filter(events, p), (e: Event) => -e.date)
  }

  /** `getPendingApprovals`: pending events, most recently created first. */
  function PendingApprovals(events: seq<Event>): (r: seq<Event>)
    ensures forall e :: multiset(r)[e] == if e.status == EventStatus.Pending then multiset(events)[e] else 0
    ensures forall i, j :: 0 <= i < j < |r| ==> r[i].createdAt >= r[j].createdAt
  {
    FilterCounts(events, IsPendingEvent);
    SortBy(Filter(events, IsPendingEvent), NewestCreated)
  }

  predicate IsPendingEvent(e: Event) {
    e.status == EventStatus.Pending
  }

  function NewestCreated(e: Event): int {
    -e.createdAt
  }

  /** Pending events submitted at the same instant are listed in the order they were added. */
  lemma PendingApprovalsStable(events: seq<Event>, v: int)
    ensures WithKey(PendingApprovals(events), NewestCreated, v) == WithKey(Filter(events, IsPendingEvent), NewestCreated, v)
  {
    var pending := Filter(events, IsPendingEvent);
    assert PendingApprovals(events) == SortBy(pending, NewestCreated);
    SortByStable(pending, NewestCreated, v);
  }

  /** `getApprovedEvents`: approved events, most recently updated first. */
  function ApprovedEvents(events: seq<Event>): (r: seq<Event>)
    ensures forall e :: multiset(r)[e] == if e.status == EventStatus.Approved then multiset(events)[e] else 0
    ensures forall i, j :: 0 <= i < j < |r| ==> r[i].updatedAt >= r[j].updatedAt
  {
    var p := (e: Event) => e.status == EventStatus.Approved;
    FilterCounts(events, p);
    SortBy(Filter(events, p), (e: Event) => -e.updatedAt)
  }

  /** `getInvitesByCategory`: the invites of one category, most recently created first. */
  function InvitesByCategory(invites: seq<StaffInvite>, category: InviteCategory): (r: seq<StaffInvite>)
    ensures forall v :: multiset(r)[v] == if v.category == category then multiset(invites)[v] else 0
    ensures forall i, j :: 0 <= i < j < |r| ==> r[i].createdAt >= r[j].createdAt
  {
    var p := (v: StaffInvite) => v.category == category;
    FilterCounts(invites, p);
    SortBy(Filter(invites, p), (v: StaffInvite) => -v.createdAt)
  }
}
