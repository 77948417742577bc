/**
  The admin dashboard figures (`updateAdminDashboard`), computed from the
  list the admin view is showing and from today's date, which is passed in.
 */
module Dashboard {
  import opened Seqs
  import opened Catalog
  import opened Bookings

  datatype Stats = Stats(todayCount: nat, cancellations: nat, activeCourts: nat, utilization: nat)

  /** Bookings whose date contains `today` (a "YYYY-MM-DD" string). */
  function TodaysBookings(data: seq<Booking>, today: string): seq<Booking> {
    Filter(data, (b: Booking) => Includes(b.date, today))
  }

  function ActiveBookings(s: seq<Booking>): seq<Booking> {
    Filter(s, (b: Booking) => b.status != Cancelled)
  }

  function CancelledBookings(s: seq<Booking>): seq<Booking> {
    Filter(s, (b: Booking) => b.status == Cancelled)
  }

  /** `new Set(s.map((b: Booking) => b.Court))`. */
  function CourtsOf(s: seq<Booking>): (r: set<string>)
    ensures forall c :: c in r <==> exists b :: b in s && b.court == c
  {
    if s == [] then {}
    else
      assert forall b :: b in s <==> b == s[0] || b in s[1..];
      {s[0].court} + CourtsOf(s[1..])
  }

  /** `Math.round(active / today * 100)`, and 0 when nothing is booked today. */
  function Utilization(active: nat, today: nat): nat {
    if today > 0 then (200 * active + today) / (2 * today) else 0
  }

  function Summarize(data: seq<Booking>, today: string): Stats {
    var todays := TodaysBookings(data, today);
    var active := ActiveBookings(todays);
    Stats(|todays|, |CancelledBookings(todays)|, |CourtsOf(active)|, Utilization(|active|, |todays|))
  }

  lemma {:induction false} CourtsOfSize(s: seq<Booking>)
    ensures |CourtsOf(s)| <= |s|
  {
    if s != [] {
      CourtsOfSize(s[1..]);
    }
  }

  /**
    `Math.round` of the percentage: the nearest whole percent, halves rounded
    up, so it lies between 0 and 100, and is 100 when nothing is cancelled
    (it can also round up to 100 with a cancellation, from 200 bookings on).
   */
  lemma {:induction false} UtilizationRounds(active: nat, today: nat)
    requires 0 < today && active <= today
    ensures var u := Utilization(active, today);
      u <= 100 &&
      2 * today * u - today <= 200 * active < 2 * today * u + today &&
      (active == today ==> u == 100)
  {
    var u := Utilization(active, today);
    var n, d := 200 * active + today, 2 * today;
    DivBounds(n, d);
    assert d * u <= n < d * u + d;
    if u > 100 {
      MulMono(d, 101, u);
      assert false;
    }
    if active == today {
      if u < 100 {
        MulMono(d, u + 1, 100);
        assert false;
      }
    }
  }

  lemma DivBounds(n: nat, d: nat)
    requires d > 0
    ensures d * (n / d) <= n < d * (n / d) + d
  {
  }

  lemma SubsetSize(a: set<string>, b: set<string>)
    requires a <= b
    ensures |a| <= |b|
  {
    assert b == a + (b - a);
  }

  lemma MulMono(d: nat, a: nat, b: nat)
    requires a <= b
    ensures d * a <= d * b
  {
  }

  /**
    Today's bookings split into cancellations and active ones; no more courts
    are busy than there are active bookings; the utilization is a percentage,
    0 when nothing is booked today and 100 when nothing booked today is
    cancelled (it can also round up to 100 with a cancellation, from 200
    bookings on).
   */
  lemma {:induction false} SummarizeSpec(data: seq<Booking>, today: string)
    ensures var st := Summarize(data, today);
      var active := |ActiveBookings(TodaysBookings(data, today))|;
      st.cancellations + active == st.todayCount &&
      st.activeCourts <= active &&
      st.utilization <= 100 &&
      (st.todayCount == 0 ==> st.utilization == 0 && st.activeCourts == 0) &&
      (st.todayCount > 0 && st.cancellations == 0 ==> st.utilization == 100) &&
      (st.todayCount > 0 ==> 2 * st.todayCount * st.utilization - st.todayCount <= 200 * active
                               < 2 * st.todayCount * st.utilization + st.todayCount)
  {
    var todays := TodaysBookings(data, today);
    var active := ActiveBookings(todays);
    FilterComplement(todays, (b: Booking) => b.status == Cancelled, (b: Booking) => b.status != Cancelled);
    CourtsOfSize(active);
    if |todays| > 0 {
      UtilizationRounds(|active|, |todays|);
    }
  }

  /** When every booking is on a court of the catalog, at most all 7 courts are busy. */
  lemma {:induction false} ActiveCourtsWithinVenue(data: seq<Booking>, today: string)
    requires forall b :: b in data ==> b.court in AllCourts()
    ensures Summarize(data, today).activeCourts <= CourtCount
  {
    var todays := TodaysBookings(data, today);
    var active := ActiveBookings(todays);
    var venue := set c | c in AllCourts();
    forall c | c in CourtsOf(active)
      ensures c in venue
    {
      var b :| b in active && b.court == c;
      assert b in todays && b in data;
    }
    CourtCountMatchesTable();
    SubsetSize(CourtsOf(active), venue);
  }

  lemma {:induction false} CancelKeepsToday(s: seq<Booking>, rowIndex: int, today: string)
    ensures |TodaysBookings(CancelFirst(s, rowIndex), today)| == |TodaysBookings(s, today)|
  {
    if s != [] && s[0].rowIndex != rowIndex {
      CancelKeepsToday(s[1..], rowIndex, today);
      assert CancelFirst(s, rowIndex)[1..] == CancelFirst(s[1..], rowIndex);
    } else if s != [] {
      assert CancelFirst(s, rowIndex)[1..] == s[1..];
    }
  }

  lemma {:induction false} CancelCountsOnce(s: seq<Booking>, rowIndex: int, today: string)
    requires exists i :: 0 <= i < |s| && s[i].rowIndex == rowIndex
    ensures var b := s[FirstWithRow(s, rowIndex)];
      |CancelledBookings(TodaysBookings(CancelFirst(s, rowIndex), today))| ==
      |CancelledBookings(TodaysBookings(s, today))| +
      (if Includes(b.date, today) && b.status != Cancelled then 1 else 0)
  {
    var c := CancelFirst(s, rowIndex);
    var head := if s[0].rowIndex == rowIndex then s[0].(status := Cancelled) else s[0];
    assert c == [head] + c[1..];
    TodaysSplit([head], c[1..], today);
    TodaysSplit([s[0]], s[1..], today);
    assert s == [s[0]] + s[1..];
    if s[0].rowIndex != rowIndex {
      assert exists i :: 0 <= i < |s[1..]| && s[1..][i].rowIndex == rowIndex by {
        var i :| 0 <= i < |s| && s[i].rowIndex == rowIndex;
        assert s[1..][i - 1] == s[i];
      }
      CancelCountsOnce(s[1..], rowIndex, today);
      assert c[1..] == CancelFirst(s[1..], rowIndex);
    } else {
      assert c[1..] == s[1..];
    }
  }

  /** Today's cancellations of `a + b` are those of `a` and those of `b`. */
  lemma TodaysSplit(a: seq<Booking>, b: seq<Booking>, today: string)
    ensures |CancelledBookings(TodaysBookings(a + b, today))| ==
      |CancelledBookings(TodaysBookings(a, today))| + |CancelledBookings(TodaysBookings(b, today))|
  {
    FilterAppend(a, b, (x: Booking) => Includes(x.date, today));
    FilterAppend(TodaysBookings(a, today), TodaysBookings(b, today), (x: Booking) => x.status == Cancelled);
  }

  /**
    Cancelling a cached booking leaves today's count alone and adds one
    cancellation exactly when the booking was today's and not yet cancelled.
   */
  lemma {:induction false} CancelUpdatesStats(s: seq<Booking>, rowIndex: int, today: string)
    requires exists i :: 0 <= i < |s| && s[i].rowIndex == rowIndex
    ensures var b := s[FirstWithRow(s, rowIndex)];
      var before, after := Summarize(s, today), Summarize(CancelFirst(s, rowIndex), today);
      after.todayCount == before.todayCount &&
      after.cancellations == before.cancellations +
        (if Includes(b.date, today) && b.status != Cancelled then 1 else 0)
  {
    CancelKeepsToday(s, rowIndex, today);
    CancelCountsOnce(s, rowIndex, today);
  }

  /** On the mock records, 2026-02-25 has one active booking on one court. */
  lemma MockDashboard()
    ensures Summarize(MockBookings(), "2026-02-25") == Stats(1, 0, 1, 100)
  {
    var m := MockBookings();
    assert Includes(m[0].date, "2026-02-25");
    assert !Includes(m[1].date, "2026-02-25") by {
      IncludesAt(m[1].date, "2026-02-25");
    }
    assert TodaysBookings(m, "2026-02-25") == [m[0]];
  }
}
