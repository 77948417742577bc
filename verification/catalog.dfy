/**
  The fixed catalog of the venue: the courts each sport can be played on
  (`COURT_OPTIONS`) and its hourly rate in pesos (`RATES`).
 */
module Catalog {
  import opened Wrappers
  import opened Numbers
  import opened Seqs

  datatype Sport = WholeBasketball | HalfBasketball | Pickleball

  /** The key under which a sport appears in both tables and in booking records. */
  function Name(s: Sport): string {
    match s
    case WholeBasketball => "Whole Basketball"
    case HalfBasketball => "Half Basketball"
    case Pickleball => "Pickleball"
  }

  /** The sport a table key stands for, if any. */
  function SportNamed(name: string): (r: Option<Sport>)
    ensures r.Some? ==> Name(r.value) == name
    ensures r.None? ==> forall s: Sport :: Name(s) != name
  {
    if name == "Whole Basketball" then Some(WholeBasketball)
    else if name == "Half Basketball" then Some(HalfBasketball)
    else if name == "Pickleball" then Some(Pickleball)
    else None
  }

  function Courts(s: Sport): seq<string> {
    match s
    case WholeBasketball => ["Whole Basketball Court"]
    case HalfBasketball => ["Half Court 1", "Half Court 2", "Half Court 3"]
    case Pickleball => ["Court 1", "Court 2", "Court 3"]
  }

  function Rate(s: Sport): nat {
    match s
    case WholeBasketball => 1000
    case HalfBasketball => 500
    case Pickleball => 300
  }

  /** `COURT_OPTIONS[name]`: the courts offered in the court selector, or nothing for an unknown sport. */
  function CourtOptions(name: string): (r: Option<seq<string>>)
    ensures r.Some? <==> SportNamed(name).Some?
    ensures r.Some? ==> r.value == Courts(SportNamed(name).value) && |r.value| > 0
  {
    match SportNamed(name)
    case Some(s) => Some(Courts(s))
    case None => None
  }

  /** `RATES[name]` as a number: NaN (from `undefined`) for an unknown sport. */
  function RateOf(name: string): (r: Num)
    ensures r.Int? <==> SportNamed(name).Some?
    ensures r.Int? ==> r.v == Rate(SportNamed(name).value) && r.v > 0 && r.v % 2 == 0
  {
    match SportNamed(name)
    case Some(s) => Int(Rate(s))
    case None => NaN
  }

  /** Every court of the venue, sport by sport in table order. */
  function AllCourts(): seq<string> {
    Courts(WholeBasketball) + Courts(HalfBasketball) + Courts(Pickleball)
  }

  /** The number of courts shown as the denominator in the dashboard's "n/7". */
  const CourtCount: nat := 7

  lemma {:induction false} CourtCountMatchesTable()
    ensures |Courts(WholeBasketball)| == 1 && |Courts(HalfBasketball)| == 3 && |Courts(Pickleball)| == 3
    ensures |AllCourts()| == CourtCount
    ensures |set c | c in AllCourts()| == CourtCount
  {
    var all := AllCourts();
    assert all == ["Whole Basketball Court", "Half Court 1", "Half Court 2", "Half Court 3",
                   "Court 1", "Court 2", "Court 3"];
    assert forall i, j :: 0 <= i < j < |all| ==> all[i] != all[j] by {
      assert forall i :: 1 <= i < 4 ==> all[i][11] as int - '0' as int == i && |all[i]| == 12;
      assert forall i :: 4 <= i < 7 ==> all[i][6] as int - '0' as int == i - 3 && |all[i]| == 7;
      assert |all[0]| == 22;
    }
    DistinctCard(all);
  }

  /** No court is shared between two sports, so a court name determines its sport. */
  lemma CourtsDetermineSport(s: Sport, t: Sport, c: string)
    requires c in Courts(s) && c in Courts(t)
    ensures s == t
  {
  }

  /** A table key names a sport exactly when it is one of the three names, and back again. */
  lemma {:induction false} NamesRoundTrip(s: Sport)
    ensures SportNamed(Name(s)) == Some(s)
  {
    match s
    case WholeBasketball =>
    case HalfBasketball =>
    case Pickleball =>
  }
}
