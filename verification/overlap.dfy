/**
 * The conflict detector: a proposed slot is blocked when it starts less than
 * 24 hours from now, or when an event already booked at the same venue on the
 * same date has a time range that intersects it. Ranges are half-open, so
 * back-to-back slots do not conflict, and event status is never consulted.
 */
module Overlap {
  import opened Types

  /** `hoursDiff < 24`, with the hour difference computed as a real quotient. */
  predicate TooLittleNotice(date: Day, startTime: MinuteOfDay, now: Instant)
    ensures TooLittleNotice(date, startTime, now) <==> At(date, startTime) < now + DAY_MS
  {
    var timeDiff := At(date, startTime) - now;
    (timeDiff as real) / (HOUR_MS as real) < 24.0
  }

  /** The half-open ranges [s1, e1) and [s2, e2) share a minute. */
  predicate RangesIntersect(s1: int, e1: int, s2: int, e2: int) {
    s1 < e2 && e1 > s2
  }

  /**
   * An existing event that the proposed slot runs into, compared on combined
   * timestamps; on one date that is the same as comparing minutes of the day.
   */
  predicate Blocks(e: Event, date: Day, startTime: MinuteOfDay, endTime: MinuteOfDay, venue: string)
    ensures Blocks(e, date, startTime, endTime, venue) <==> Clashes(e, date, startTime, endTime, venue)
  {
    if e.venue != venue || e.date != date then false
    else
      var eventStart := At(e.date, e.startTime);
      var eventEnd := At(e.date, e.endTime);
      var newStart := At(date, startTime);
      var newEnd := At(date, endTime);
      newStart < eventEnd && newEnd > eventStart
  }

  /** Same venue, same date and intersecting minutes of the day. */
  predicate Clashes(e: Event, date: Day, startTime: MinuteOfDay, endTime: MinuteOfDay, venue: string) {
    e.venue == venue && e.date == date && RangesIntersect(startTime, endTime, e.startTime, e.endTime)
  }

  /** `events.some(...)`. */
  function SomeBlocks(events: seq<Event>, date: Day, startTime: MinuteOfDay, endTime: MinuteOfDay, venue: string): (r: bool)
    ensures r <==> exists i :: 0 <= i < |events| && Clashes(events[i], date, startTime, endTime, venue)
  {
    if events == [] then false
    else
      var rest := SomeBlocks(events[1..], date, startTime, endTime, venue);
      assert forall i :: 0 < i < |events| ==> events[i] == events[1..][i - 1];
      Blocks(events[0], date, startTime, endTime, venue) || rest
  }

  /**
   * `checkOverlap`: true (blocked) under 24 hours' notice whatever the
   * collection holds; otherwise true exactly when some event at the same venue
   * on the same date has an intersecting half-open range.
   */
  function CheckOverlap(events: seq<Event>, date: Day, startTime: MinuteOfDay, endTime: MinuteOfDay,
                        venue: string, now: Instant): (blocked: bool)
    ensures At(date, startTime) < now + DAY_MS ==> blocked
    ensures At(date, startTime) >= now + DAY_MS ==>
      (blocked <==> exists i :: 0 <= i < |events| && Clashes(events[i], date, startTime, endTime, venue))
  {
    if TooLittleNotice(date, startTime, now) then true
    else SomeBlocks(events, date, startTime, endTime, venue)
  }

  /** The state invariant: no two booked events at one venue on one date intersect. */
  ghost predicate NoVenueConflicts(events: seq<Event>) {
    forall i, j :: 0 <= i < j < |events| ==>
      !Clashes(events[i], events[j].date, events[j].startTime, events[j].endTime, events[j].venue)
  }

  lemma ClashesSymmetric(a: Event, b: Event)
    ensures Clashes(a, b.date, b.startTime, b.endTime, b.venue) <==> Clashes(b, a.date, a.startTime, a.endTime, a.venue)
  {
  }

  /** A slot that passed the detector keeps the collection free of conflicts once appended. */
  lemma AdmissionKeepsNoVenueConflicts(events: seq<Event>, e: Event, now: Instant)
    requires NoVenueConflicts(events)
    requires !CheckOverlap(events, e.date, e.startTime, e.endTime, e.venue, now)
    ensures NoVenueConflicts(events + [e])
  {
    var all := events + [e];
    forall i, j | 0 <= i < j < |all|
      ensures !Clashes(all[i], all[j].date, all[j].startTime, all[j].endTime, all[j].venue)
    {
      if j == |events| {
        assert all[i] == events[i] && all[j] == e;
      } else {
        assert all[i] == events[i] && all[j] == events[j];
      }
    }
  }

  /** Events at another venue or on another date never block. */
  lemma OtherSlotsNeverBlock(events: seq<Event>, date: Day, startTime: MinuteOfDay, endTime: MinuteOfDay,
                             venue: string, now: Instant)
    requires At(date, startTime) >= now + DAY_MS
    requires forall i :: 0 <= i < |events| ==> events[i].venue != venue || events[i].date != date
    ensures !CheckOverlap(events, date, startTime, endTime, venue, now)
  {
  }

  /** An event that ends exactly when the slot starts, or starts exactly when it ends, never blocks it. */
  lemma {:induction false} BackToBackNeverBlocks(events: seq<Event>, e: Event, startTime: MinuteOfDay,
                                                 endTime: MinuteOfDay, now: Instant)
    requires startTime == e.endTime || endTime == e.startTime
    ensures CheckOverlap(events + [e], e.date, startTime, endTime, e.venue, now)
         == CheckOverlap(events, e.date, startTime, endTime, e.venue, now)
  {
    var all := events + [e];
    assert !Clashes(e, e.date, startTime, endTime, e.venue);
    assert forall i :: 0 <= i < |events| ==> all[i] == events[i];
    assert all[|events|] == e;
  }

  /** Two collections that differ only in event status. */
  ghost predicate SameButStatus(a: seq<Event>, b: seq<Event>) {
    |a| == |b| && forall i :: 0 <= i < |a| ==> a[i] == b[i].(status := a[i].status)
  }

  /** Pending and approved events block alike: status is never consulted. */
  lemma StatusNeverConsulted(a: seq<Event>, b: seq<Event>, date: Day, startTime: MinuteOfDay,
                             endTime: MinuteOfDay, venue: string, now: Instant)
    requires SameButStatus(a, b)
    ensures CheckOverlap(a, date, startTime, endTime, venue, now) == CheckOverlap(b, date, startTime, endTime, venue, now)
  {
    if At(date, startTime) >= now + DAY_MS {
      if CheckOverlap(a, date, startTime, endTime, venue, now) {
        var i :| 0 <= i < |a| && Clashes(a[i], date, startTime, endTime, venue);
        assert Clashes(b[i], date, startTime, endTime, venue);
      }
      if CheckOverlap(b, date, startTime, endTime, venue, now) {
        var i :| 0 <= i < |b| && Clashes(b[i], date, startTime, endTime, venue);
        assert Clashes(a[i], date, startTime, endTime, venue);
      }
    }
  }
}
