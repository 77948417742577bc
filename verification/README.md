# Court booking front end: the decision logic

A verified model of the decision logic in the court-booking front end's
`script.js`. That logic covers:

- the venue's catalog of sports, courts and hourly rates;
- the duration and price rule applied when the booking form is submitted;
- the live price panel beside the form;
- the amount due for the chosen payment method;
- the admin view's filter;
- the dashboard counts;
- the mock cancel, which marks a cached booking as cancelled in place.

The rendering, the remote calls and the browser plumbing around this logic are
not modelled.

Modules, one per concern of the script:

- `Numbers`: the slice of JavaScript numbers the script depends on. A value is
  a whole number or NaN, and comparisons with NaN are false. `parseInt` with
  no radix is modelled in full: leading white space, a sign, a `0x` prefix,
  and digits up to the first non-digit.
- `Seqs`: `Array.prototype.filter` and `String.prototype.includes` on sequences.
- `Catalog`: `COURT_OPTIONS` and `RATES`.
- `Pricing`: `handleBookingSubmit`, `updatePriceDisplay` and `selectPayment`,
  as pure functions.
- `Bookings`: the booking record, the admin filter and the cancel rule.
- `Dashboard`: `updateAdminDashboard`. The date for "today" is a parameter.
- `App`: a class holding the page's globals (`allBookingsCache`,
  `lastBookingData`, `selectedPaymentMethod`). Its handlers are methods. The
  cache is an `array` that the mock cancel updates in place.

Behaviour of the code as written that the model keeps:

- Only the hours of the "HH:MM" values count. 10:45 to 11:00 is charged as a
  full hour, and 10:00 to 10:59 is refused.
- A time with no digit before its colon (an empty field, say) gives a NaN
  duration. The check `duration < 1` does not catch NaN, so the submission is
  accepted with a NaN price. A sport missing from `RATES` gives a NaN price too.
- The downpayment `total * 0.5` is always a whole number, because every rate
  is even.
- The dashboard is computed from the list being displayed. After a filter, that
  is the filtered list, not the whole cache.
- `Math.round` rounds a half up. The utilization can therefore show 100% when a
  booking today is cancelled, once there are 200 or more bookings that day.

Where the specification of the system and `script.js` disagree, the model
follows the script:

- The script computes utilization as active bookings over today's bookings.
  The count of distinct courts is shown separately, as "n/7".
- Cancelling a row number that is not in the cache throws in the script
  (`find` returns `undefined`). The cancel therefore requires such a row.
- The script takes "today" from the UTC date, not the local one.
- The script has no merge of remote and local records, no overlap or slot
  check, no calendar layout, and no per-sport or per-hour counts. None of
  these is modelled.

## Model

| member | source | states |
|---|---|---|
| `Numbers.ParseIntTwoDigits` | script.js:169-170 | `parseInt` reads a two-digit field followed by a non-digit (such as ':') back as its value |
| `Seqs.Filter` | script.js:386-391 | `filter` keeps exactly the elements of the input that satisfy the predicate, and never grows the list |
| `Seqs.FilterIsSubsequence` | script.js:386 | the result of `filter` is an order-preserving subsequence of its input |
| `Seqs.FilterAll` | script.js:386-391 | a predicate that holds for every element returns the whole input |
| `Seqs.FilterComplement` | script.js:406-409 | filtering by a predicate and by its negation splits the list: the two lengths add up to its length |
| `Seqs.FilterMultiset` | script.js:386-391 | `filter` keeps every occurrence of a satisfying element and no occurrence of any other |
| `Seqs.FilterAppend` | script.js:405 | filtering distributes over concatenation |
| `Seqs.IncludesAt` | script.js:387 | `includes` holds exactly when the substring occurs at some index |
| `Catalog.SportNamed` | script.js:11-15 | a table key names a sport only when it equals that sport's key; otherwise no sport has that key |
| `Catalog.NamesRoundTrip` | script.js:5-15 | looking up a sport's own key gives back that sport |
| `Catalog.CourtOptions` | script.js:73-83 | the court selector gets the sport's non-empty court list for a known sport, and nothing (disabled) otherwise |
| `Catalog.RateOf` | script.js:11-15 | `RATES[sport]` is the sport's positive, even rate for a known sport, and NaN otherwise |
| `Catalog.CourtCountMatchesTable` | script.js:5-9 | the sports have 1, 3 and 3 courts, 7 distinct names in all, which is the 7 shown as the denominator in "n/7" |
| `Catalog.CourtsDetermineSport` | script.js:5-9 | no court name belongs to two sports |
| `Pricing.BeforeColon` | script.js:169 | `split(':')[0]` is the prefix of the value up to its first colon, or the whole value if there is none |
| `Pricing.HourOfTimeOfDay` | script.js:169-170 | the hour parsed from an "HH:MM" value is HH |
| `Pricing.PriceOf` | script.js:179-191 | the total is the sport's rate times the duration (NaN for an unknown sport or duration), and the downpayment is exactly half of it |
| `Pricing.SubmitTimes` | script.js:166-192 | for "HH:MM" inputs and any sport, a submission is refused exactly when the end hour is not after the start hour; otherwise it copies the form, and for a catalog sport charges rate × hours, with half down |
| `Pricing.DurationOfTimes` | script.js:169-171 | the duration of two "HH:MM" values is the end hour minus the start hour |
| `Pricing.SubmitByDuration` | script.js:171-191 | for a whole-number duration d and any sport, the submission is refused exactly when d < 1; otherwise it copies the form, and for a catalog sport charges rate × d, with half down |
| `Pricing.MinutesIgnored` | script.js:169-171 | changing only the minutes changes neither the decision nor the prices |
| `Pricing.UnpricedSubmissionAccepted` | script.js:171-179 | a NaN duration or an unknown sport is not refused, and it yields NaN prices |
| `Pricing.EmptyTimeAccepted` | script.js:166-173 | an empty start time gets through the duration check, with a NaN total |
| `Pricing.PickleballTwoHours` | script.js:179-191 | Pickleball from 14:00 to 16:00 costs 600, with 300 down |
| `Pricing.PanelAgreesWithSubmit` | script.js:205-223 | the panel shows exactly when the start, end and sport fields are non-empty and the duration is at least 1, and then it shows the submission's total and downpayment; an accepted submission has its panel hidden only when a field is empty or the duration is NaN |
| `Pricing.AmountDueBounded` | script.js:230 | for a priced submission the amount due is positive and at most the total; it equals the total exactly for 'GCash Full', and is the downpayment otherwise |
| `Bookings.ApplyFiltersSpec` | script.js:386-391 | a booking is kept iff it is in the cache and every non-empty filter matches (date as a substring, sport and court by equality); each matching booking is kept as many times as the cache holds it, the order is kept, and with no filter the whole cache is returned |
| `Bookings.FirstWithRow` | script.js:371 | the index `find` stops at: it holds the row number, and no earlier booking does |
| `Bookings.CancelFirstSpec` | script.js:371 | the cancel keeps the length, sets the first matching booking's status to Cancelled and nothing else of it, and leaves every other booking unchanged |
| `Dashboard.CourtsOf` | script.js:412 | the set of courts is exactly the courts of the given bookings |
| `Dashboard.CourtsOfSize` | script.js:412 | there are no more distinct courts than bookings |
| `Dashboard.UtilizationRounds` | script.js:415 | the utilization is the nearest whole percent of active over today's bookings, halves rounded up; it is at most 100, and 100 when every booking is active |
| `Dashboard.SummarizeSpec` | script.js:403-416 | cancellations plus active bookings make today's count; busy courts ≤ active bookings; utilization ≤ 100, 0 when nothing is booked today, 100 when nothing is cancelled, and is `Math.round` of the percentage |
| `Dashboard.ActiveCourtsWithinVenue` | script.js:411-413 | when every booking's court is a catalog court, at most 7 courts are busy |
| `Dashboard.CancelUpdatesStats` | script.js:371-372 | after a cancel, today's count is unchanged; the cancellations go up by one exactly when the booking was today's and not already cancelled |
| `Dashboard.MockDashboard` | script.js:301-304 | on the mock rows, 2026-02-25 has one booking, no cancellation, one busy court and 100% utilization |
| `App.FindByRow` | script.js:371 | a scan of the array returns the first index holding the row number |
| `App.BookingApp.constructor` | script.js:17-19 | the page starts with an empty cache, no pending booking and no payment method |
| `App.BookingApp.LoadBookings` | script.js:289-307 | the loaded list replaces the cache, and the dashboard is computed from it |
| `App.BookingApp.SubmitForm` | script.js:163-199 | the priced record becomes `lastBookingData` iff the submission is not refused; a refusal leaves it as it was |
| `App.BookingApp.SelectPayment` | script.js:225-231 | the method is recorded, and the amount is the pending booking's total or its downpayment, as `AmountDue` chooses |
| `App.BookingApp.CancelCached` | script.js:367-374 | the cache array becomes `CancelFirst` of its old contents, and the dashboard is redrawn from it |
| `App.BookingApp.Filtered` | script.js:381-394 | the shown list is the filtered cache, and the dashboard is computed from that list |

## Left out

- DOM rendering, view switching and the loading overlay (`showView`, `setLoading`, `renderBookingsTable` markup, `showPaymentSummary` text): presentation only.
- The option lists built for the two court selectors: only the lookup `COURT_OPTIONS[sport]` that decides them is modelled (`Catalog.CourtOptions`).
- Session handling, login and the mock credentials (`checkSession`, `selectRole`, `handleLogin`, `logout`): browser storage and a mock login.
- `finalizeBooking`: its checks for a payment method and a receipt, the `FileReader` base64 encoding and the submission are browser I/O and a remote call, and are not part of this model.
- Every `google.script.run` call: remote and asynchronous. That covers authentication, `getBookings`, `submitBooking` and the remote cancel followed by a reload. Only the synchronous state changes are modelled: loading a list into the cache and the mock cancel.
- The `setTimeout` delays, and the `alert`/`confirm` dialogs. The cancel is modelled for a confirmed dialog; a declined one changes nothing.
- Reading "today" from the clock (`new Date().toISOString()`): today's date is a parameter.
- The `₱` text the amounts are shown in: formatting only.
- `Numbers.ParseInt`: does not model the precision lost for digit strings beyond 2^53, or the sign of `-0`.
- `Dashboard.Utilization`: rounds the exact fraction; the floating-point product `active / today * 100` can land on the other side of a .5 boundary, which is not modelled.
- `Catalog.SportNamed`: treats every key other than the three sport names as unknown. Inherited object keys such as "constructor" would be found by the JavaScript lookup.
- `App.BookingApp.CancelCached`: the script mutates a booking object that the displayed filtered list shares, so that list changes too. The model updates the cache array only, and does not model the aliasing.
