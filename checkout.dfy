/** The checkout page: customer details, the payment mode, and the
    confirmed booking record built from the draft when the customer pays. */
module Checkout {
  import opened Types
  import opened Slots
  import Store

  datatype PaymentMode = Full | Advance

  /** Paying in full marks the booking paid; the advance marks it partly
      paid. A booking made here is never pending. */
  function PaymentStatusFor(mode: PaymentMode): (r: PaymentStatus)
    ensures r == Paid <==> mode == Full
    ensures r != Pending
  {
    if mode == Full then Paid else Partial
  }

  /** The decimal text of a clock value, as a template literal prints it. */
  function NatToString(n: nat): (s: string)
    ensures AllDigits(s) && s != []
  {
    if n < 10 then [Digit(n)] else NatToString(n / 10) + [Digit(n % 10)]
  }

  /** The printed clock value reads back as the same number. */
  lemma {:induction false} NatToStringValue(n: nat)
    ensures DecimalValue(NatToString(n)) == n
    decreases n
  {
    var s := NatToString(n);
    if n < 10 {
      assert s[..0] == [];
    } else {
      NatToStringValue(n / 10);
      assert s[..|s| - 1] == NatToString(n / 10);
    }
  }

  /** `BK-` followed by the clock value, which reads back from the digits. */
  function BookingId(clock: nat): (r: string)
    ensures |r| > 3 && r[..3] == "BK-"
    ensures AllDigits(r[3..]) && DecimalValue(r[3..]) == clock
  {
    NatToStringValue(clock);
    var r := "BK-" + NatToString(clock);
    assert r[3..] == NatToString(clock);
    r
  }

  /** Bookings confirmed at different clock values get different ids. */
  lemma DistinctIds(m: nat, n: nat)
    requires m != n
    ensures BookingId(m) != BookingId(n)
  {
    NatToStringValue(m);
    NatToStringValue(n);
    assert BookingId(m)[3..] == NatToString(m) && BookingId(n)[3..] == NatToString(n);
  }

  /** `bookingDetails.totalAmount || 0`. */
  function DraftTotal(details: Option<Draft>): (r: real)
    ensures details.None? ==> r == 0.0
    ensures details.Some? ==> r == details.value.totalAmount
  {
    match details
    case Some(d) => d.totalAmount
    case None => 0.0
  }

  /** The record handed to the app when payment goes through. The id and
      the timestamp are two separate reads of the clock. */
  function FinalBooking(d: Draft, name: string, phone: string, mode: PaymentMode, idClock: nat, stampClock: nat): (r: Booking)
    ensures r.turfId == d.turfId && r.date == d.date && r.startTime == d.startTime
    ensures r.durationMinutes == d.durationMinutes && r.totalAmount == d.totalAmount
    ensures r.customerName == name && r.customerPhone == phone
    ensures r.status == Confirmed && r.paymentMethod == Online && r.paymentStatus != Pending
    ensures (r.paymentStatus == Paid <==> mode == Full) && r.timestamp == stampClock
    ensures r.id == BookingId(idClock)
  {
    Booking(BookingId(idClock), d.turfId, d.date, d.startTime, d.durationMinutes,
            name, phone, d.totalAmount, Confirmed, PaymentStatusFor(mode), Online, stampClock)
  }

  /** Once saved, the confirmed booking takes away every slot of its turf and
      date that its start time and duration overlap. */
  lemma SavedBookingBlocks(turf: Turf, bookings: seq<Booking>, d: Draft, name: string, phone: string,
                           mode: PaymentMode, idClock: nat, stampClock: nat, k: int)
    requires 0 <= k < SlotCount && d.turfId == turf.id
    requires CheckOverlap(SlotLabel(k), SlotMinutes, d.startTime, d.durationMinutes)
    ensures !DaySlots(turf, d.date, bookings + [FinalBooking(d, name, phone, mode, idClock, stampClock)])[k].available
  {
    var more := bookings + [FinalBooking(d, name, phone, mode, idClock, stampClock)];
    assert Blocks(more[|bookings|], turf, d.date, SlotLabel(k));
    assert DaySlots(turf, d.date, more)[k] == SlotAt(turf, d.date, more, k);
  }

  class CheckoutPage {
    const bookingDetails: Option<Draft>
    var name: string
    var phone: string
    var paymentMode: PaymentMode

    /** Empty details, the advance preselected. */
    constructor(details: Option<Draft>)
      ensures bookingDetails == details && name == "" && phone == "" && paymentMode == Advance
    {
      bookingDetails := details;
      name := "";
      phone := "";
      paymentMode := Advance;
    }

    method SetName(value: string)
      modifies this`name
      ensures name == value
    {
      name := value;
    }

    method SetPhone(value: string)
      modifies this`phone
      ensures phone == value
    {
      phone := value;
    }

    method SetPaymentMode(mode: PaymentMode)
      modifies this`paymentMode
      ensures paymentMode == mode
    {
      paymentMode := mode;
    }

    /** The turf the draft names; without a draft there is no turf id to
        look up. */
    function Turf(): (r: Option<Turf>)
      reads this
      ensures r.Some? ==> bookingDetails.Some? && r.value in Store.Turfs && r.value.id == bookingDetails.value.turfId
      ensures bookingDetails.Some? && (exists t | t in Store.Turfs :: t.id == bookingDetails.value.turfId) ==> r.Some?
    {
      match bookingDetails
      case Some(d) => Store.FindTurf(d.turfId)
      case None => None
    }

    /** The page shows nothing unless the draft names a known turf. */
    predicate Renders()
      reads this
      ensures Renders() <==> bookingDetails.Some? && exists t | t in Store.Turfs :: t.id == bookingDetails.value.turfId
    {
      Turf().Some?
    }

    /** The amount the page charges: the draft's, or 0 without one. */
    function Total(): (r: real)
      reads this
      ensures bookingDetails.None? ==> r == 0.0
      ensures bookingDetails.Some? ==> r == bookingDetails.value.totalAmount
    {
      DraftTotal(bookingDetails)
    }

    /** `handlePayment`, with the payment delay taken as one step: nothing
        happens while a detail is empty; otherwise the confirmed booking is
        produced. */
    method HandlePayment(idClock: nat, stampClock: nat) returns (confirmed: Option<Booking>)
      requires Renders()
      ensures confirmed.None? <==> name == [] || phone == []
      ensures confirmed.Some? ==> confirmed.value == FinalBooking(bookingDetails.value, name, phone, paymentMode, idClock, stampClock)
      ensures confirmed.Some? ==> confirmed.value.totalAmount == Total() && confirmed.value.status == Confirmed
    {
      if name == [] || phone == [] {
        return None;
      }
      var d := bookingDetails.value;
      confirmed := Some(FinalBooking(d, name, phone, paymentMode, idClock, stampClock));
    }
  }
}
