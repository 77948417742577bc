/**
  The booking form's duration and price rule (`handleBookingSubmit`), the live
  price panel beside the form (`updatePriceDisplay`) and the amount shown for
  the chosen payment method (`selectPayment`).
 */
module Pricing {
  import opened Numbers
  import opened Catalog

  /** `time.split(':')[0]`: everything before the first colon. */
  function BeforeColon(time: string): (r: string)
    ensures r <= time && ':' !in r
    ensures r == time || time[|r|] == ':'
  {
    if time == [] || time[0] == ':' then [] else [time[0]] + BeforeColon(time[1..])
  }

  /** `parseInt(time.split(':')[0])`: the hour of an "HH:MM" value. */
  function HourOf(time: string): Num {
    ParseInt(BeforeColon(time))
  }

  /** The "HH:MM" value a time input holds for hour `h` and minute `m`. */
  function TimeOfDay(h: nat, m: nat): string
    requires h < 100 && m < 100
  {
    TwoDigits(h) + ":" + TwoDigits(m)
  }

  lemma {:induction false} HourOfTimeOfDay(h: nat, m: nat)
    requires h < 100 && m < 100
    ensures HourOf(TimeOfDay(h, m)) == Int(h)
  {
    var t := TimeOfDay(h, m);
    assert BeforeColon(t[2..]) == [] by { assert t[2] == ':'; }
    assert BeforeColon(t[1..]) == [t[1]] by { assert t[1..][1..] == t[2..]; }
    assert BeforeColon(t) == TwoDigits(h) by { assert t[0] != ':' && t[1] != ':'; }
    ParseIntTwoDigits(h, []);
    assert TwoDigits(h) + [] == TwoDigits(h);
  }

  /** `endH - startH`, in whole hours; minutes are not looked at. */
  function Duration(startTime: string, endTime: string): Num {
    Sub(HourOf(endTime), HourOf(startTime))
  }

  datatype Price = Price(total: Num, downpayment: Num)

  /** `RATES[sport] * duration` and half of it. */
  function PriceOf(sport: string, duration: Num): (p: Price)
    ensures p.total.Int? <==> SportNamed(sport).Some? && duration.Int?
    ensures p.total.Int? ==> p.total.v == Rate(SportNamed(sport).value) * duration.v
    ensures p.downpayment.Int? <==> p.total.Int?
    ensures p.total.Int? ==> 2 * p.downpayment.v == p.total.v
  {
    var rate := RateOf(sport);
    var total := Mul(rate, duration);
    assert total.Int? ==> total.v == 2 * (rate.v / 2 * duration.v);
    Price(total, Half(total))
  }

  /** The values read from the booking form. */
  datatype BookingForm = BookingForm(
    name: string, contact: string, email: string,
    sport: string, court: string, date: string,
    startTime: string, endTime: string)

  /** The record kept as `lastBookingData` and shown on the payment page. */
  datatype BookingData = BookingData(
    name: string, contact: string, email: string,
    sport: string, court: string, date: string,
    startTime: string, endTime: string,
    totalPrice: Num, downpayment: Num)

  datatype Submission =
    | TooShort              // "Minimum booking is 1 hour": nothing is recorded
    | Summary(data: BookingData)

  /** What submitting the booking form produces. */
  function Submit(form: BookingForm): Submission {
    var duration := Duration(form.startTime, form.endTime);
    if Below(duration, 1) then TooShort
    else
      var p := PriceOf(form.sport, duration);
      Summary(BookingData(form.name, form.contact, form.email,
                          form.sport, form.court, form.date,
                          form.startTime, form.endTime,
                          p.total, p.downpayment))
  }

  /** The form with its time and sport fields, and the prices, carried over. */
  predicate CopiesForm(data: BookingData, form: BookingForm) {
    data.name == form.name && data.contact == form.contact && data.email == form.email &&
    data.sport == form.sport && data.court == form.court && data.date == form.date &&
    data.startTime == form.startTime && data.endTime == form.endTime
  }

  /**
    For times as the form's time inputs give them, a submission is refused
    exactly when the end hour is not after the start hour, whatever the
    sport; otherwise the record copies the form and, for a sport of the
    catalog, is charged the sport's rate for every whole hour between them,
    with half of that as the downpayment.
   */
  lemma {:induction false} SubmitTimes(form: BookingForm, h1: nat, m1: nat, h2: nat, m2: nat)
    requires h1 < 100 && m1 < 100 && h2 < 100 && m2 < 100
    requires form.startTime == TimeOfDay(h1, m1) && form.endTime == TimeOfDay(h2, m2)
    ensures Submit(form).TooShort? <==> h2 <= h1
    ensures Submit(form).Summary? ==> CopiesForm(Submit(form).data, form)
    ensures Submit(form).Summary? && SportNamed(form.sport).Some? ==>
      var rate := Rate(SportNamed(form.sport).value);
      Submit(form).data.totalPrice == Int(rate * (h2 - h1)) &&
      Submit(form).data.downpayment == Int(rate * (h2 - h1) / 2)
  {
    DurationOfTimes(h1, m1, h2, m2);
    SubmitByDuration(form, h2 - h1);
  }

  lemma DurationOfTimes(h1: nat, m1: nat, h2: nat, m2: nat)
    requires h1 < 100 && m1 < 100 && h2 < 100 && m2 < 100
    ensures Duration(TimeOfDay(h1, m1), TimeOfDay(h2, m2)) == Int(h2 - h1)
  {
    HourOfTimeOfDay(h1, m1);
    HourOfTimeOfDay(h2, m2);
  }

  /** The decision and the prices depend on the times only through the duration. */
  lemma SubmitByDuration(form: BookingForm, d: int)
    requires Duration(form.startTime, form.endTime) == Int(d)
    ensures Submit(form).TooShort? <==> d < 1
    ensures Submit(form).Summary? ==> CopiesForm(Submit(form).data, form)
    ensures Submit(form).Summary? && SportNamed(form.sport).Some? ==>
      var rate := Rate(SportNamed(form.sport).value);
      Submit(form).data.totalPrice == Int(rate * d) &&
      Submit(form).data.downpayment == Int(rate * d / 2)
  {
    if d >= 1 {
      var p := PriceOf(form.sport, Int(d));
      assert Submit(form).data.totalPrice == p.total && Submit(form).data.downpayment == p.downpayment;
    }
  }

  /** Only the hours count: 10:45 to 11:00 is charged as a full hour, 10:00 to 10:59 is refused. */
  lemma MinutesIgnored(form: BookingForm, h1: nat, m1: nat, h2: nat, m2: nat, m1': nat, m2': nat)
    requires h1 < 100 && m1 < 100 && h2 < 100 && m2 < 100 && m1' < 100 && m2' < 100
    requires form.startTime == TimeOfDay(h1, m1) && form.endTime == TimeOfDay(h2, m2)
    ensures
      var form' := form.(startTime := TimeOfDay(h1, m1'), endTime := TimeOfDay(h2, m2'));
      Submit(form').TooShort? == Submit(form).TooShort? &&
      (Submit(form).Summary? ==>
        Submit(form').data == Submit(form).data.(startTime := form'.startTime, endTime := form'.endTime))
  {
    HourOfTimeOfDay(h1, m1);
    HourOfTimeOfDay(h2, m2);
    HourOfTimeOfDay(h1, m1');
    HourOfTimeOfDay(h2, m2');
  }

  /**
    A start or end time with no digit before its colon gives a NaN duration,
    which `duration < 1` does not catch: the submission goes through with a NaN
    price, and so does one for a sport the rate table does not know.
   */
  lemma UnpricedSubmissionAccepted(form: BookingForm)
    requires HourOf(form.startTime).NaN? || HourOf(form.endTime).NaN? || SportNamed(form.sport).None?
    requires !Below(Duration(form.startTime, form.endTime), 1)
    ensures Submit(form).Summary?
    ensures Submit(form).data.totalPrice.NaN? && Submit(form).data.downpayment.NaN?
  {
  }

  lemma {:induction false} EmptyTimeAccepted(form: BookingForm)
    requires form.startTime == ""
    ensures Submit(form).Summary? && Submit(form).data.totalPrice.NaN?
  {
    assert BeforeColon("") == "";
    assert DigitRun("", false) == 0;
  }

  /** Pickleball from 14:00 to 16:00 costs 600, with 300 down. */
  lemma PickleballTwoHours(form: BookingForm)
    requires form.sport == "Pickleball" && form.startTime == "14:00" && form.endTime == "16:00"
    ensures Submit(form).Summary?
    ensures Submit(form).data.totalPrice == Int(600) && Submit(form).data.downpayment == Int(300)
  {
    assert "14:00" == TimeOfDay(14, 0);
    assert "16:00" == TimeOfDay(16, 0);
    SubmitTimes(form, 14, 0, 16, 0);
  }

  datatype PricePanel = Hidden | Shown(price: Price)

  /** The price panel next to the form, recomputed whenever start, end or sport changes. */
  function PanelFor(start: string, end: string, sport: string): PricePanel {
    if start != [] && end != [] && sport != [] then
      var d := Duration(start, end);
      if AtLeast(d, 1) then Shown(PriceOf(sport, d)) else Hidden
    else Hidden
  }

  /**
    The panel is shown exactly when the three fields are filled in and the
    duration is a number of at least one hour, and then it shows the price the
    submission records; a submission that the panel hides is either refused
    or has a field missing or a time without an hour.
   */
  lemma {:induction false} PanelAgreesWithSubmit(form: BookingForm)
    ensures PanelFor(form.startTime, form.endTime, form.sport).Shown? <==>
      form.startTime != [] && form.endTime != [] && form.sport != [] &&
      AtLeast(Duration(form.startTime, form.endTime), 1)
    ensures PanelFor(form.startTime, form.endTime, form.sport).Shown? ==>
      var p := PanelFor(form.startTime, form.endTime, form.sport).price;
      Submit(form).Summary? &&
      Submit(form).data.totalPrice == p.total && Submit(form).data.downpayment == p.downpayment
    ensures Submit(form).Summary? && PanelFor(form.startTime, form.endTime, form.sport).Hidden? ==>
      form.startTime == [] || form.endTime == [] || form.sport == [] ||
      Duration(form.startTime, form.endTime).NaN?
  {
  }

  /** The payment option that pays the whole price up front. */
  const FullPayment: string := "GCash Full"

  /** The amount shown once a payment method is picked. */
  function AmountDue(paymentMethod: string, data: BookingData): Num {
    if paymentMethod == FullPayment then data.totalPrice else data.downpayment
  }

  /**
    For a priced submission the amount due is the total exactly for the
    full-payment option and the downpayment, strictly less, for every other
    option; it never exceeds the total.
   */
  lemma {:induction false} AmountDueBounded(form: BookingForm, paymentMethod: string)
    requires Submit(form).Summary? && SportNamed(form.sport).Some?
    requires Duration(form.startTime, form.endTime).Int?
    ensures
      var data := Submit(form).data;
      var amount := AmountDue(paymentMethod, data);
      amount.Int? && data.totalPrice.Int? && 0 < amount.v <= data.totalPrice.v &&
      (amount == data.totalPrice <==> paymentMethod == FullPayment) &&
      (paymentMethod != FullPayment ==> amount == data.downpayment)
  {
    var d := Duration(form.startTime, form.endTime);
    var rate := Rate(SportNamed(form.sport).value);
    assert d.v >= 1;
    assert rate * d.v >= rate;
  }
}
