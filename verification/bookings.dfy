/**
  The booking records the admin view lists (`allBookingsCache`), the admin
  filter over them (`applyFilters`) and the status change the mock cancel
  makes.
 */
module Bookings {
  import opened Seqs

  /** One row of the booking sheet, with the fields the admin logic reads. */
  datatype Booking = Booking(
    rowIndex: int, name: string, sport: string, court: string, date: string,
    startTime: string, endTime: string, status: string, calendarEventId: string)

  const Cancelled: string := "Cancelled"

  /** The date, sport and court selectors of the admin view; "" means no filter. */
  datatype Filters = Filters(date: string, sport: string, court: string)

  const NoFilters: Filters := Filters("", "", "")

  /** The date matches as a substring, the sport and the court exactly, and an empty filter matches anything. */
  predicate Matches(f: Filters, b: Booking) {
    (f.date == "" || Includes(b.date, f.date)) &&
    (f.sport == "" || b.sport == f.sport) &&
    (f.court == "" || b.court == f.court)
  }

  function ApplyFilters(cache: seq<Booking>, f: Filters): seq<Booking> {
    Filter(cache, b => Matches(f, b))
  }

  /**
    The filtered list keeps a booking exactly when it is in the cache and every
    filter that is set matches it, keeps every occurrence of a matching booking
    (as many times as the cache holds it) and the cache's order, and is the
    whole cache when no filter is set.
   */
  lemma {:induction false} ApplyFiltersSpec(cache: seq<Booking>, f: Filters)
    ensures forall b :: b in ApplyFilters(cache, f) <==>
      b in cache &&
      (f.date == "" || exists i: nat :: OccursAt(b.date, f.date, i)) &&
      (f.sport == "" || b.sport == f.sport) &&
      (f.court == "" || b.court == f.court)
    ensures forall b :: multiset(ApplyFilters(cache, f))[b] == if Matches(f, b) then multiset(cache)[b] else 0
    ensures IsSubsequence(ApplyFilters(cache, f), cache)
    ensures f == NoFilters ==> ApplyFilters(cache, f) == cache
  {
    forall b: Booking
      ensures Includes(b.date, f.date) <==> exists i: nat :: OccursAt(b.date, f.date, i)
    {
      IncludesAt(b.date, f.date);
    }
    FilterMultiset(cache, b => Matches(f, b));
    FilterIsSubsequence(cache, b => Matches(f, b));
    if f == NoFilters {
      FilterAll(cache, b => Matches(f, b));
    }
  }

  /** The index `allBookingsCache.find(b => b.rowIndex === rowIndex)` stops at. */
  function FirstWithRow(s: seq<Booking>, rowIndex: int): (k: nat)
    requires exists i :: 0 <= i < |s| && s[i].rowIndex == rowIndex
    ensures k < |s| && s[k].rowIndex == rowIndex
    ensures forall j :: 0 <= j < k ==> s[j].rowIndex != rowIndex
  {
    if s[0].rowIndex == rowIndex then 0
    else
      assert exists i :: 0 <= i < |s[1..]| && s[1..][i].rowIndex == rowIndex by {
        var i :| 0 <= i < |s| && s[i].rowIndex == rowIndex;
        assert s[1..][i - 1] == s[i];
      }
      1 + FirstWithRow(s[1..], rowIndex)
  }

  /** The cache after the mock cancel: the first booking with that row is marked cancelled. */
  function CancelFirst(s: seq<Booking>, rowIndex: int): seq<Booking> {
    if s == [] then []
    else if s[0].rowIndex == rowIndex then [s[0].(status := Cancelled)] + s[1..]
    else [s[0]] + CancelFirst(s[1..], rowIndex)
  }

  /**
    Cancelling keeps the length, marks the first booking with the row as
    cancelled (leaving all its other fields alone) and leaves every other
    booking as it was.
   */
  lemma {:induction false} CancelFirstSpec(s: seq<Booking>, rowIndex: int)
    requires exists i :: 0 <= i < |s| && s[i].rowIndex == rowIndex
    ensures
      var k := FirstWithRow(s, rowIndex);
      var r := CancelFirst(s, rowIndex);
      |r| == |s| && r[k] == s[k].(status := Cancelled) &&
      forall j :: 0 <= j < |s| && j != k ==> r[j] == s[j]
  {
    if s[0].rowIndex != rowIndex {
      assert exists i :: 0 <= i < |s[1..]| && s[1..][i].rowIndex == rowIndex by {
        var i :| 0 <= i < |s| && s[i].rowIndex == rowIndex;
        assert s[1..][i - 1] == s[i];
      }
      CancelFirstSpec(s[1..], rowIndex);
    }
  }

  /** The records the admin view shows when no backend is reachable. */
  function MockBookings(): seq<Booking> {
    [Booking(2, "John Doe", "Pickleball", "Court 1", "2026-02-25", "10:00", "11:00", "Confirmed", "mock1"),
     Booking(3, "Jane Smith", "Whole Basketball", "Whole Basketball Court", "2026-02-26", "14:00", "16:00", Cancelled, "mock2")]
  }
}
