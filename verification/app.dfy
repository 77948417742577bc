/**
  The page's global state (`allBookingsCache`, `lastBookingData`,
  `selectedPaymentMethod`) and the handlers that change it.
 */
module App {
  import opened Wrappers
  import opened Numbers
  import opened Pricing
  import opened Bookings
  import opened Dashboard

  /** `a.find(b => b.rowIndex === rowIndex)`, as an index; the caller knows there is one. */
  method FindByRow(a: array<Booking>, rowIndex: int) returns (k: nat)
    requires exists i :: 0 <= i < a.Length && a[i].rowIndex == rowIndex
    ensures k < a.Length && a[k].rowIndex == rowIndex
    ensures forall j :: 0 <= j < k ==> a[j].rowIndex != rowIndex
    ensures k == FirstWithRow(a[..], rowIndex)
  {
    k := 0;
    while a[k].rowIndex != rowIndex
      invariant k < a.Length
      invariant forall j :: 0 <= j < k ==> a[j].rowIndex != rowIndex
      decreases a.Length - k
    {
      k := k + 1;
    }
  }

  class BookingApp {
    /** The bookings the admin view last loaded. */
    var cache: array<Booking>
    /** The booking awaiting payment, once the form has been submitted. */
    var lastBookingData: Option<BookingData>
    var selectedPaymentMethod: string

    constructor ()
      ensures fresh(cache) && cache.Length == 0
      ensures lastBookingData == None && selectedPaymentMethod == ""
    {
      cache := new Booking[0];
      lastBookingData := None;
      selectedPaymentMethod := "";
    }

    /** A successful `getBookings` (or the mock rows) replaces the cache; the dashboard is redrawn from it. */
    method LoadBookings(data: seq<Booking>, today: string) returns (stats: Stats)
      modifies this
      ensures fresh(cache) && cache[..] == data
      ensures lastBookingData == old(lastBookingData)
      ensures selectedPaymentMethod == old(selectedPaymentMethod)
      ensures stats == Summarize(data, today)
    {
      cache := new Booking[|data|](i requires 0 <= i < |data| => data[i]);
      stats := Summarize(cache[..], today);
    }

    /** Submitting the booking form keeps the priced record unless the duration check refuses it. */
    method SubmitForm(form: BookingForm) returns (accepted: bool)
      modifies this`lastBookingData
      ensures accepted <==> Submit(form).Summary?
      ensures lastBookingData == if accepted then Some(Submit(form).data) else old(lastBookingData)
    {
      match Submit(form)
      case TooShort =>
        accepted := false;
      case Summary(data) =>
        lastBookingData := Some(data);
        accepted := true;
    }

    /** Picking a payment card records the method and gives the amount to pay. */
    method SelectPayment(paymentMethod: string) returns (amount: Num)
      requires lastBookingData.Some?
      modifies this`selectedPaymentMethod
      ensures selectedPaymentMethod == paymentMethod
      ensures amount == AmountDue(paymentMethod, lastBookingData.value)
    {
      selectedPaymentMethod := paymentMethod;
      amount := AmountDue(paymentMethod, lastBookingData.value);
    }

    /**
      The mock cancel: the first cached booking with the row number becomes
      Cancelled in place, and the dashboard is redrawn from the cache.
     */
    method CancelCached(rowIndex: int, today: string) returns (stats: Stats)
      requires exists i :: 0 <= i < cache.Length && cache[i].rowIndex == rowIndex
      modifies cache
      ensures cache[..] == CancelFirst(old(cache[..]), rowIndex)
      ensures stats == Summarize(cache[..], today)
    {
      var k := FindByRow(cache, rowIndex);
      cache[k] := cache[k].(status := Cancelled);
      CancelFirstSpec(old(cache[..]), rowIndex);
      assert cache[..] == CancelFirst(old(cache[..]), rowIndex);
      stats := Summarize(cache[..], today);
    }

    /** The admin filter: the matching bookings, and the dashboard drawn from them. */
    method Filtered(f: Filters, today: string) returns (shown: seq<Booking>, stats: Stats)
      ensures shown == ApplyFilters(cache[..], f)
      ensures stats == Summarize(shown, today)
    {
      shown := ApplyFilters(cache[..], f);
      stats := Summarize(shown, today);
    }
  }
}
