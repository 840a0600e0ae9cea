# Hercules Arena booking core, in Dafny

This project models the logic of the Hercules Arena turf-booking storefront: the
slot availability engine, the slot picker, the booking store, the owner's
dashboard, checkout and the page state machine. It proves what each of them
promises.

- **Slot availability engine** (`utils.dfy`, module `Slots`):
  - It builds the 40 half-hour slots of an operating day, 06:00 to 01:30 the next morning.
  - Each slot is flagged peak or off-peak and priced at half the hourly rate, with the 1.2 peak multiplier.
  - A slot is unavailable when a live booking of the same turf and date overlaps it.
  - Overlap is tested on half-open minute intervals.
  - Times are parsed as `h * 60 + m` and are not unwrapped past midnight.
  - The generator is a method with the source's two nested loops. It is proved equal to the value `DaySlots`, and the lemmas state what `DaySlots` promises.
- **Booking store** (`mock_data.dfy`, module `Store`):
  - The two-turf catalogue.
  - A `BookingStore` class whose `bookings` field stands for the browser's storage slot.
  - Saving appends a booking.
  - A status update changes the first booking with the id, found by a `findIndex` loop.
- **Slot picker** (`booking.dfy`, module `SlotSelection`):
  - The page is a class holding the selected turf, the selected date and the chip it came from, the selected labels and the generated slots.
  - Clicking an available slot toggles its label.
    - The selection stays strictly ascending in JavaScript's default string order.
    - The running total moves by exactly that slot's price.
  - Proceeding builds the draft:
    - the start is the smallest selected label;
    - the duration is 30 minutes per label.
  - Grouping by time of day is a loop into four lists, proved equal to per-period filters.
  - For a generated day, those filters are the slices 0–11, 12–19, 20–29 and 30–39.
- **Owner's dashboard** (`admin.dfy`, module `Admin`):
  - The list is sorted newest first by a stable insertion sort, proved sorted and a permutation of the store.
  - Revenue counts only bookings that are not cancelled.
  - A status change is mirrored in the store and in the local list.
  - The TODAY filter keeps exactly today's bookings.
  - Cancel and complete are offered only for confirmed bookings.
- **Checkout** (`checkout.dfy`, module `Checkout`):
  - Nothing happens while the name or the phone is empty.
  - Otherwise the confirmed booking is built from the draft.
    - Its id is `BK-` and the clock's decimal digits; distinct clock values give distinct ids.
    - Its payment status follows the payment mode.
- **Page state machine** (`app.dfy`, module `App`): the current view, the draft, the confirmed booking and the mock admin login.
- **Records and enumerations** (`types.dfy`, module `Types`).

Clock readings, "today", the selected date and the stored bookings the
booking page reads are parameters, not reads of a system clock or of browser
storage. Money is an exact `real`.

The model keeps these behaviours of the code as written:
- A zero-length booking strictly inside a slot overlaps it: `s1 < e2 && e1 > s2` holds when s1 < s2 == e2 < e1 (utils.ts:62, `Slots.OverlapSymmetric`).
- Times are compared as `h * 60 + m` with no unwrapping (utils.ts:52-55).
  - The generator runs the day from 6 AM to 2 AM the next morning (utils.ts:3), but its after-midnight slots sit at minutes 0–90.
  - So a one-hour booking at 23:30 does not take the 00:00 slot (`Slots.MidnightNotUnwrapped`).
- Labels are sorted as text (pages/Booking.tsx:40, 54).
  - Every after-midnight label sorts before every label from 06:00 to 23:30 (`SlotSelection.AfterMidnightSortsFirst`).
  - So a selection spanning midnight starts at its after-midnight label.
- Contiguity of a selection is never checked (pages/Booking.tsx:52-62). The draft has the smallest label as its start and 30 minutes per label as its duration, whatever the gaps.
- The selected date is a `Date` object, and the refresh effect compares it by identity (pages/Booking.tsx:15, 20-24, 32, 134).
  - The first click on today's chip is a change, because the chip's object is not the one made at mount.
  - So that click empties the selection (`SlotSelection.TodayChipClearsSelection`).

## Model

| member | source | states |
|---|---|---|
| Slots.ParseTime | utils.ts:52-55 | a time that parses is never a negative minute count |
| Slots.ParseTimeNaN | utils.ts:52-55 | a number exactly when the text has a colon and the pieces before it and after it (up to the next colon) are digit strings, an empty piece reading as 0; otherwise NaN |
| Slots.CheckOverlap | utils.ts:46-63 | true exactly when both times parse and the half-open intervals [s1, s1+d1) and [s2, s2+d2) overlap; an unparsable time (NaN) gives false |
| Slots.OverlapSymmetric | utils.ts:57-62 | the overlap test is symmetric in its two intervals; touching intervals (e1 = s2) do not overlap; an empty interval strictly inside the other does |
| Slots.TwoDigitsValue | utils.ts:15 | the zero-padded hour text is all digits and reads back as the hour |
| Slots.LabelShape | utils.ts:19 | every slot label has the `HH:mm` shape the booking record expects |
| Slots.ParseLabel | utils.ts:52-55 | parsing the label of hour h, minute m gives h * 60 + m |
| Slots.DaySlots | utils.ts:4-44 | a generated day has exactly 40 slots |
| Slots.GenerateTimeSlots | utils.ts:4-44 | the nested loop returns exactly 40 slots, equal to `DaySlots` of the turf, date and bookings |
| Slots.PushedSlot | utils.ts:13-40 | the slot the loop body pushes at hour i, minute index j is slot 2(i - 6) + j of the day, with the wrapped hour, peak flag and price of the source |
| Slots.WallClock | utils.ts:13-19 | slot k is at hour 6 + k/2 before midnight and k/2 - 18 after it, at minute 30(k mod 2); after midnight its wall-clock minute is 30k - 1080, not 360 + 30k |
| Slots.SlotStart | utils.ts:52-55 | each slot label parses to its wall-clock minute; the slots after midnight parse as 0..90 |
| Slots.SlotLabelsDistinct | utils.ts:13-19 | no two slots of a day share a label |
| Slots.SlotTime | utils.ts:19-36 | the time of generated slot k is its label |
| Slots.SlotLabelsInOrder | utils.ts:10-19 | slot k is labelled with hour 6 + k/2 (or k/2 - 18 after midnight) and minute 30(k mod 2), so the order is 06:00, 06:30, ..., 23:30, 00:00, ..., 01:30 |
| Slots.BoundaryLabels | utils.ts:10-19 | the first slot is 06:00, slot 35 is 23:30, slot 36 is 00:00 and the last is 01:30 |
| Slots.SlotsChronological | utils.ts:13-19 | every label parses; on either side of midnight later slots start exactly 30 minutes per position later |
| Slots.PeakHours | utils.ts:14-22 | the wrapped hour of slot k is in 18..23 exactly for slots 24..35, so 00:xx and 01:xx are not peak |
| Slots.PeakSlots | utils.ts:22-39 | a slot is peak exactly for slots 24..35; its price is 0 when unavailable, else base * 0.6 at peak and base * 0.5 off-peak |
| Slots.AvailableIff | utils.ts:28-37 | a slot is unavailable exactly when some booking has the turf's id, the date, a status other than CANCELLED and overlaps the slot's 30 minutes |
| Slots.AllAvailableWithoutLiveBookings | utils.ts:28-33 | with only cancelled, other-turf or other-date bookings every slot is available |
| Slots.AppendBooking | utils.ts:28-33 | one more booking never frees a slot, and a cancelled one changes no slot |
| Slots.OneBooking | utils.ts:28-62 | with one live booking at h:m, slot k is taken exactly when [its minute, +30) overlaps [h*60+m, +duration) |
| Slots.TenOClockBooking | utils.ts:28-33 | a confirmed 90-minute booking at 10:00 takes exactly the 10:00, 10:30 and 11:00 slots; a cancelled one takes none |
| Slots.EveningBooking | utils.ts:28-33 | a confirmed one-hour booking at 18:00 takes exactly the 18:00 and 18:30 slots |
| Slots.MidnightNotUnwrapped | utils.ts:52-55 | a confirmed one-hour booking at 23:30 takes only the 23:30 slot, not 00:00 |
| Store.TurfCatalogue | services/mockData.ts:3-37 | two turfs with distinct ids: cricket at 1200 an hour and pickleball at 800 |
| Store.FindTurfIn | pages/Checkout.tsx:20 | no result exactly when no turf has the id; otherwise a listed turf with that id |
| Store.IndexOf | services/mockData.ts:91 | -1 exactly when no booking has the id; otherwise the position of the first one |
| Store.FindIndex | services/mockData.ts:91 | the search loop returns `IndexOf` |
| Store.UpdateTouchesOnlyFirstMatch | services/mockData.ts:90-95 | the update keeps the length and order, changes only the status of the first booking with the id, and leaves the list as it is for an unknown id |
| Store.SetStatusAt | services/mockData.ts:92-93 | the length is kept, every other entry is unchanged, and the chosen entry gets the status and keeps its id |
| Store.BookingStore.constructor | services/mockData.ts:74-78 | with nothing stored the bookings are the empty list |
| Store.BookingStore.GetBookings | services/mockData.ts:74-78 | definition: the list as last written, in the order written |
| Store.BookingStore.SaveBooking | services/mockData.ts:80-84 | the new list is the old one with the booking appended |
| Store.BookingStore.UpdateBookingStatus | services/mockData.ts:86-96 | the new list is the old one with the status of the first booking with the id replaced, the length unchanged |
| SlotSelection.LessIrreflexive | pages/Booking.tsx:40 | no label sorts before itself |
| SlotSelection.LessAsymmetric | pages/Booking.tsx:40 | two labels never sort before each other |
| SlotSelection.LessTransitive | pages/Booking.tsx:40 | the default string order is transitive |
| SlotSelection.LessTotal | pages/Booking.tsx:40 | of two different labels one sorts first |
| SlotSelection.LabelOrder | pages/Booking.tsx:40 | zero-padded labels sort as text exactly as their (hour, minute) pairs |
| SlotSelection.AfterMidnightSortsFirst | pages/Booking.tsx:54 | every after-midnight label sorts before every label from 06:00 to 23:30 |
| SlotSelection.LabelsAscendWithinSide | pages/Booking.tsx:40 | on either side of midnight a later slot has a later label |
| SlotSelection.SortedUnique | pages/Booking.tsx:40-54 | two strictly ascending lists with the same labels are equal, so the sort's result is determined by the labels |
| SlotSelection.Insert | pages/Booking.tsx:40 | the list grows by one entry, and the new label is in it |
| SlotSelection.InsertElements | pages/Booking.tsx:40 | inserting a label adds exactly that label |
| SlotSelection.InsertSorted | pages/Booking.tsx:40 | inserting a new label into an ascending list keeps it ascending and duplicate-free, with exactly that label added |
| SlotSelection.ClickOrderIrrelevant | pages/Booking.tsx:40 | adding two new labels in either order gives the same selection |
| SlotSelection.RemoveAll | pages/Booking.tsx:38 | the label is gone, no other label is added, and the list does not grow |
| SlotSelection.RemoveAllAt | pages/Booking.tsx:38 | filtering out a label that occurs once removes just that entry and keeps the others in order |
| SlotSelection.NotInRemoveAll | pages/Booking.tsx:38 | filtering out an absent label changes nothing |
| SlotSelection.RemoveSorted | pages/Booking.tsx:38 | removing a selected label keeps the rest in order, ascending, without it, and with exactly one label fewer |
| SlotSelection.FindSlot | pages/Booking.tsx:47 | a found slot is one of the slots and carries the label; nothing is found exactly when no slot carries it |
| SlotSelection.TotalOf | pages/Booking.tsx:45-50 | an empty selection totals 0; with no negative price the total is not negative |
| SlotSelection.FindFirst | pages/Booking.tsx:47 | `find` returns the first slot carrying the label |
| SlotSelection.FindInDay | pages/Booking.tsx:47-48 | on a generated day, looking up the label of slot k finds slot k and its price |
| SlotSelection.TotalInsert | pages/Booking.tsx:45-50 | inserting a label raises the total by that label's price |
| SlotSelection.TotalAppend | pages/Booking.tsx:45-50 | the total of two lists put together is the sum of their totals |
| SlotSelection.TotalRemoveAt | pages/Booking.tsx:45-50 | removing a label lowers the total by that label's price |
| SlotSelection.EveningSlots | utils.ts:22-39 | on an unbooked day the cricket ground's 18:00 and 18:30 slots are available, peak and priced 720 |
| SlotSelection.PeakPairTotal | pages/Booking.tsx:45-50 | selecting 18:00 and 18:30 on the cricket ground with no bookings totals 1440 |
| SlotSelection.PeriodOf | pages/Booking.tsx:73-78 | Morning exactly for parsed hours 6-11, Afternoon for 12-15, Evening for 16-20, and Night for NaN and every other hour |
| SlotSelection.SlotsIn | pages/Booking.tsx:73-79 | the filter of the slots by the period's test, never longer than the slots |
| SlotSelection.PeriodMembers | pages/Booking.tsx:73-79 | a slot is listed under a period exactly when it is one of the slots and its hour belongs to that period |
| SlotSelection.PeriodsPartition | pages/Booking.tsx:73-79 | the four period lists together have as many entries as there are slots |
| SlotSelection.LabelHour | pages/Booking.tsx:74 | `parseInt` of a label's hour field is the hour |
| SlotSelection.DayPeriod | pages/Booking.tsx:74-78 | slots 0-11 are Morning, 12-19 Afternoon, 20-29 Evening and 30-39 Night |
| SlotSelection.SelectRange | pages/Booking.tsx:73-79 | a filter that keeps exactly positions lo to hi yields that slice, in order |
| SlotSelection.DayGrouping | pages/Booking.tsx:73-79 | on a generated day the four period lists are the slices [0, 12), [12, 20), [20, 30) and [30, 40), in source order |
| SlotSelection.BookingPage.constructor | pages/Booking.tsx:14-32 | the first turf, today, no selection, and the day's generated slots |
| SlotSelection.BookingPage.RefreshSlots | pages/Booking.tsx:26-32 | the slots are regenerated for the turf and date and the selection is emptied |
| SlotSelection.BookingPage.SelectTurf | pages/Booking.tsx:14-32 | a different turf regenerates the slots and empties the selection; the same turf changes nothing; the date and the selected chip are kept either way |
| SlotSelection.BookingPage.SelectDate | pages/Booking.tsx:15-32 | clicking a chip other than the selected one makes it selected, takes its date, regenerates the slots and empties the selection; re-clicking the selected chip changes nothing; the mount-time date is no chip |
| SlotSelection.TodayChipClearsSelection | pages/Booking.tsx:15-32 | after picking a slot, clicking today's chip leaves today's date and an empty selection |
| SlotSelection.BookingPage.HandleSlotClick | pages/Booking.tsx:34-43 | an unavailable slot changes nothing; a selected label is removed and a new one added, the selection stays strictly ascending, and the total moves by that slot's price |
| SlotSelection.BookingPage.CalculateTotal | pages/Booking.tsx:45-50 | the page's total is 0 with nothing selected, and not negative when no slot has a negative price |
| SlotSelection.BookingPage.HandleProceed | pages/Booking.tsx:52-62 | no draft exactly when nothing is selected; otherwise the page's turf and date, the smallest selected label as start, 30 minutes per label, and the page's total |
| SlotSelection.BookingPage.SlotsByPeriod | pages/Booking.tsx:65-82 | the loop's four lists are the slots of each period in source order |
| Admin.SortByTime | pages/Admin.tsx:21 | the sorted list is as long as the input |
| Admin.InsertByTimeSorted | pages/Admin.tsx:21 | inserting into a newest-first list keeps it newest first and adds exactly that booking |
| Admin.SortByTimeNewest | pages/Admin.tsx:21 | the sorted list has non-increasing timestamps |
| Admin.SortByTimeElements | pages/Admin.tsx:21 | the sorted list holds exactly the given bookings |
| Admin.SortByTimeCorrect | pages/Admin.tsx:21 | the sorted list is newest first and holds exactly the given bookings |
| Admin.SortNewestFirst | pages/Admin.tsx:19-21 | the sort loop returns `SortByTime`, newest first and a permutation of the input |
| Admin.Revenue | pages/Admin.tsx:30-32 | with no negative amount the revenue is not negative |
| Admin.RevenueAppend | pages/Admin.tsx:30-32 | the revenue of two lists put together is the sum of their revenues |
| Admin.RevenueAllCancelled | pages/Admin.tsx:30-32 | cancelled bookings earn nothing |
| Admin.RevenueSplit | pages/Admin.tsx:30-32 | the revenue is that of the other bookings plus what booking j earns |
| Admin.RevenuePermutation | pages/Admin.tsx:30-32 | the revenue depends only on which bookings there are, not on their order |
| Admin.MapStatus | pages/Admin.tsx:26 | the local update keeps the length of the list |
| Admin.MapStatusPointwise | pages/Admin.tsx:26 | the local update changes only bookings with the id, and only their status |
| Admin.MapStatusMatchesStore | pages/Admin.tsx:24-26 | with distinct ids the local update and the store's update make the same change |
| Admin.MapStatusPermutation | pages/Admin.tsx:26 | updating two reorderings of one list gives reorderings of one list |
| Admin.CompleteKeepsRevenue | pages/Admin.tsx:26-32 | completing a booking that is not cancelled leaves the revenue as it is |
| Admin.CancelLowersRevenue | pages/Admin.tsx:26-32 | cancelling a live booking lowers the revenue by its amount |
| Admin.TodaysBookings | pages/Admin.tsx:35 | TODAY's list is never longer than the whole list |
| Admin.Filtered | pages/Admin.tsx:47 | ALL shows the whole list, and no filter lengthens it |
| Admin.TodaysBookingsExact | pages/Admin.tsx:34-35 | TODAY keeps exactly the bookings dated today, each as often as the list holds it |
| Admin.OfferedActions | pages/Admin.tsx:152-169 | actions are offered exactly for confirmed bookings; a confirmed booking is offered both cancel and complete, and nothing else is ever offered |
| Admin.Terminal | pages/Admin.tsx:152-169 | an action applies only to a confirmed booking and leaves it with no actions |
| Admin.AdminDashboard.constructor | pages/Admin.tsx:14-22 | the stored bookings newest first, filter ALL |
| Admin.AdminDashboard.HandleStatusChange | pages/Admin.tsx:24-27 | the store updates the first booking with the id, the local list every booking with it, and the two stay reorderings of each other |
| Admin.AdminDashboard.SetFilter | pages/Admin.tsx:96-102 | the filter becomes the chosen one |
| Admin.AdminDashboard.TotalRevenue | pages/Admin.tsx:30-32 | the dashboard's revenue is not negative when no booking has a negative amount |
| Admin.AdminDashboard.TotalCount | pages/Admin.tsx:76 | definition: the "Total Bookings" card counts every booking the dashboard holds |
| Admin.AdminDashboard.TodayCount | pages/Admin.tsx:76-83 | today's count never exceeds the total count |
| Admin.AdminDashboard.Shown | pages/Admin.tsx:47 | ALL shows every booking; TODAY shows exactly the bookings dated today |
| Admin.DashboardRevenue | pages/Admin.tsx:19-32 | the dashboard's revenue equals the store's |
| Checkout.PaymentStatusFor | pages/Checkout.tsx:44 | PAID exactly for the full payment, PARTIAL otherwise, never PENDING |
| Checkout.NatToString | pages/Checkout.tsx:35 | the printed clock value is a non-empty string of digits |
| Checkout.NatToStringValue | pages/Checkout.tsx:35 | the printed clock value reads back as the clock value |
| Checkout.BookingId | pages/Checkout.tsx:35 | the id is `BK-` followed by digits that read back as the clock value |
| Checkout.DraftTotal | pages/Checkout.tsx:21 | definition: 0 without a draft, the draft's amount otherwise |
| Checkout.FinalBooking | pages/Checkout.tsx:34-47 | the draft's turf, date, start, duration and amount, the typed name and phone, CONFIRMED, ONLINE, PAID exactly for the full payment and never PENDING, the id built from the first clock value and the timestamp from the second |
| Checkout.DistinctIds | pages/Checkout.tsx:35 | different clock values give different booking ids |
| Checkout.SavedBookingBlocks | pages/Checkout.tsx:34-47 | once saved, the confirmed booking takes every slot of its turf and date that it overlaps |
| Checkout.CheckoutPage.constructor | pages/Checkout.tsx:15-17 | empty name and phone, the advance preselected |
| Checkout.CheckoutPage.SetName | pages/Checkout.tsx:15 | the name becomes the typed value |
| Checkout.CheckoutPage.SetPhone | pages/Checkout.tsx:16 | the phone becomes the typed value |
| Checkout.CheckoutPage.SetPaymentMode | pages/Checkout.tsx:17 | the payment mode becomes the chosen one |
| Checkout.CheckoutPage.Turf | pages/Checkout.tsx:20 | a turf exactly when the draft names a listed turf, and then that turf |
| Checkout.CheckoutPage.Renders | pages/Checkout.tsx:54 | the page renders exactly when there is a draft and it names a listed turf |
| Checkout.CheckoutPage.Total | pages/Checkout.tsx:21 | the amount charged is the draft's, or 0 without a draft |
| Checkout.CheckoutPage.HandlePayment | pages/Checkout.tsx:24-52 | no booking exactly when the name or the phone is empty; otherwise the draft's turf, date, start and duration, the inputs, the draft's total, CONFIRMED, ONLINE and the mode's payment status |
| App.ViewOf | App.tsx:29 | the cast keeps the string, and only names outside the six known ones become unknown views |
| App.ViewNamesRoundTrip | App.tsx:12-29 | every view, unknown ones named outside the six, is the cast of its own name |
| App.Authorized | App.tsx:46 | definition: true exactly for the pair admin / hero123, compared as typed |
| App.App.constructor | App.tsx:15-21 | the home view, no draft, nothing confirmed, empty login fields |
| App.App.ShowsConfirmation | App.tsx:106 | the confirmation page is drawn only in the confirmation view and only with a confirmed booking |
| App.App.HandleNavigate | App.tsx:23-30 | `contact` keeps the view; any other name becomes the view |
| App.App.StartBooking | App.tsx:32 | the view becomes booking |
| App.App.ProceedToCheckout | App.tsx:34-37 | the draft is kept and the view becomes checkout |
| App.App.HandleBookingConfirm | App.tsx:39-43 | the booking is appended to the store once, becomes the confirmed one, and the confirmation page shows |
| App.App.SetAdminUser | App.tsx:63 | the user name becomes the typed value |
| App.App.SetAdminPass | App.tsx:69 | the password becomes the typed value |
| App.App.HandleAdminLogin | App.tsx:45-51 | the dashboard opens exactly for admin / hero123; otherwise the view stays |
| App.App.GoHome | App.tsx:72-81 | back to the site and logout both show the home view |
| App.App.BackToBooking | App.tsx:101 | back from checkout shows slot selection |
| App.BookOnce | App.tsx:32-43 | start, proceed and confirm leave the store with that one booking and the confirmation page showing |
| App.RejectedLogin | App.tsx:45-51 | wrong credentials leave the visitor on the login view |

## Left out

- The date and price formatting helpers (utils.ts:65-91) are not modelled, because they use locale formatting and the system clock.
- Browser storage and JSON are not modelled: the store keeps its bookings in a sequence field. A missing or unreadable storage entry is not modelled beyond the empty start.
- The two-second payment delay and the processing spinner are not modelled; a confirmation is one atomic step.
- IEEE floating point is not modelled: prices and totals are exact reals, and the 1.2 multiplier is exact.
  - The advance amount `Math.ceil(total * 0.3)` is not modelled, because it only feeds the display.
- The dates shown and today's date are not computed from the system clock: "today", the selected date and the clock values are parameters.
- The booking page's refresh reads the stored bookings with `getBookings()` (pages/Booking.tsx:28); the model passes those bookings in as a parameter of the constructor, `RefreshSlots`, `SelectTurf` and `SelectDate`.
- The two `alert` pop-ups are not modelled (App.tsx:49, pages/Checkout.tsx:26): a rejected login and a payment with an empty detail only leave the state as it was.
- The chart data, the charts, the WhatsApp link, scrolling to the footer, and all rendering and styling are not modelled.
- `Number` and `parseInt` are modelled for strings of ASCII digits only:
  - any other text reads as NaN, and NaN makes every comparison false;
  - `parseInt` reads the leading digits.
- JavaScript's default sort compares UTF-16 code units. The model compares characters, which agrees on the ASCII labels the generator makes.
- Admin.SortNewestFirst: the dashboard's `data.sort` works in place on an array. The model builds the sorted list as a value by insertion. Ties keep their input order, but that stability is not stated as a lemma.
- Admin.AdminDashboard.HandleStatusChange: requires distinct booking ids.
  - The store updates only the first booking with an id, while the dashboard's `map` updates every booking with it.
  - With repeated ids the two lists stop being reorderings of each other.
- Checkout.CheckoutPage.HandlePayment: requires a draft naming a listed turf, since otherwise the page renders nothing and there is no pay button.
- The 14-day date strip is modelled only as chip numbers: the day each chip shows is a parameter of the click. The other presentational pages and components are not modelled.
