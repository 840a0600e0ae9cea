/** The slot availability engine: the 40 half-hour slots of one turf's
    operating day (06:00 up to 02:00 the next morning), each flagged peak or
    not, priced, and marked unavailable when a live booking overlaps it. */
module Slots {
  import opened Types

  const StartHour := 6
  const EndHour := 26
  const SlotMinutes := 30
  const SlotCount := 40

  // ---------------------------------------------------------------------
  // Text of times
  // ---------------------------------------------------------------------

  predicate AllDigits(s: string) {
    forall i | 0 <= i < |s| :: IsDigit(s[i])
  }

  /** Decimal value of a string of digits; the empty string reads as 0, as
      JavaScript's `Number("")` does. */
  function DecimalValue(s: string): (n: nat)
    requires AllDigits(s)
  {
    if s == [] then 0 else DecimalValue(s[..|s| - 1]) * 10 + DigitValue(s[|s| - 1])
  }

  /** JavaScript's `Number` applied to a string, for strings of digits; every
      other string reads as NaN, written `None`. */
  function JsNumber(s: string): Option<nat> {
    if AllDigits(s) then Some(DecimalValue(s)) else None
  }

  /** The text before the first colon (all of `s` when it has none). */
  function Field(s: string): string
  {
    if s == [] || s[0] == ':' then [] else [s[0]] + Field(s[1..])
  }

  /** The text after the first colon, or `None` when there is no colon. */
  function AfterColon(s: string): (r: Option<string>)
  {
    if s == [] then None
    else if s[0] == ':' then Some(s[1..])
    else AfterColon(s[1..])
  }

  /** `parseTime`: `t.split(':').map(Number)`, then `h * 60 + m` with the
      first two pieces. A missing or non-numeric piece is NaN, and so is the
      result. There is no unwrapping of times past midnight. */
  function ParseTime(t: string): (r: Option<int>)
    ensures r.Some? ==> r.value >= 0
  {
    match AfterColon(t)
    case None => None
    case Some(rest) =>
      match (JsNumber(Field(t)), JsNumber(Field(rest)))
      case (Some(h), Some(m)) => Some(h * 60 + m)
      case _ => None
  }

  /** `parseTime` is a number exactly when the text has a colon and the
      pieces before it and between it and the next colon are digit strings
      (an empty piece is `Number("")`, which is 0). */
  lemma ParseTimeNaN(t: string)
    ensures AfterColon(t).Some? <==> ':' in t
    ensures ParseTime(t).Some? <==> AfterColon(t).Some? && AllDigits(Field(t)) && AllDigits(Field(AfterColon(t).value))
  {
    HasColon(t);
  }

  lemma {:induction false} HasColon(s: string)
    ensures AfterColon(s).Some? <==> ':' in s
    decreases |s|
  {
    if s != [] && s[0] != ':' {
      HasColon(s[1..]);
      assert ':' in s <==> ':' in s[1..];
    }
  }

  /** `hour.toString().padStart(2, '0')` for an hour below 100. */
  function TwoDigits(n: int): string
    requires 0 <= n < 100
  {
    [Digit(n / 10), Digit(n % 10)]
  }

  /** The `HH:MM` label of a wall-clock hour and minute. */
  function Label(h: int, m: int): string
    requires 0 <= h < 100 && 0 <= m < 100
  {
    TwoDigits(h) + ":" + TwoDigits(m)
  }

  /** The labels the scenarios below start their bookings on. */
  lemma LabelText()
    ensures Label(10, 0) == "10:00" && Label(18, 0) == "18:00" && Label(23, 30) == "23:30"
  {
    assert Label(10, 0) == "10:00";
    assert Label(18, 0) == "18:00";
    assert Label(23, 30) == "23:30";
  }

  /** Every label has the `HH:mm` shape. */
  lemma LabelShape(h: int, m: int)
    requires 0 <= h < 100 && 0 <= m < 100
    ensures IsTimeLabel(Label(h, m))
  {
  }

  lemma TwoDigitsValue(n: int)
    requires 0 <= n < 100
    ensures AllDigits(TwoDigits(n)) && DecimalValue(TwoDigits(n)) == n
  {
    var s := TwoDigits(n);
    assert s[..1] == [Digit(n / 10)] && s[..1][..0] == [];
    assert DecimalValue(s[..1]) == DigitValue(Digit(n / 10));
    assert DecimalValue(s) == DecimalValue(s[..1]) * 10 + DigitValue(Digit(n % 10));
  }

  /** Parsing a label gives back its wall-clock minute. */
  lemma {:induction false} ParseLabel(h: int, m: int)
    requires 0 <= h < 100 && 0 <= m < 100
    ensures ParseTime(Label(h, m)) == Some(h * 60 + m)
  {
    var s := Label(h, m);
    assert s == [s[0], s[1], ':', s[3], s[4]];
    assert Field(s[2..]) == [];
    assert Field(s) == TwoDigits(h) by {
      assert Field(s[1..]) == [s[1]] + Field(s[2..]);
    }
    assert AfterColon(s[2..]) == Some(s[3..]);
    assert AfterColon(s[1..]) == AfterColon(s[2..]);
    assert AfterColon(s) == Some(TwoDigits(m));
    assert Field(TwoDigits(m)) == TwoDigits(m) by {
      var t := TwoDigits(m);
      assert Field(t[2..]) == [];
      assert Field(t[1..]) == [t[1]] + Field(t[2..]);
    }
    TwoDigitsValue(h);
    TwoDigitsValue(m);
  }

  // ---------------------------------------------------------------------
  // Overlap
  // ---------------------------------------------------------------------

  /** Half-open intervals [s1, e1) and [s2, e2) share a point. */
  predicate Overlap(s1: int, e1: int, s2: int, e2: int) {
    s1 < e2 && e1 > s2
  }

  /** `checkOverlap`: the slot [start, start + duration) against the
      booking's interval, both read by `ParseTime`. A NaN time makes every
      comparison false, so no overlap. */
  function CheckOverlap(slotStart: string, slotDuration: int, bookingStart: string, bookingDuration: int): (r: bool)
    ensures r <==> ParseTime(slotStart).Some? && ParseTime(bookingStart).Some? &&
                   Overlap(ParseTime(slotStart).value, ParseTime(slotStart).value + slotDuration,
                           ParseTime(bookingStart).value, ParseTime(bookingStart).value + bookingDuration)
  {
    match (ParseTime(slotStart), ParseTime(bookingStart))
    case (Some(s1), Some(s2)) =>
      var e1 := s1 + slotDuration;
      var e2 := s2 + bookingDuration;
      s1 < e2 && e1 > s2
    case _ => false
  }

  /** The overlap test does not depend on which interval comes first, and
      intervals that only touch do not overlap. An empty interval strictly
      inside the other one does overlap it. */
  lemma OverlapSymmetric(s1: int, e1: int, s2: int, e2: int)
    ensures Overlap(s1, e1, s2, e2) <==> Overlap(s2, e2, s1, e1)
    ensures e1 == s2 ==> !Overlap(s1, e1, s2, e2)
    ensures s1 < s2 < e1 ==> Overlap(s1, e1, s2, s2)
  {
  }

  // ---------------------------------------------------------------------
  // The slots of one day
  // ---------------------------------------------------------------------

  /** Wall-clock hour of slot `k`: the loop's `i % 24` for `i = 6 + k / 2`. */
  function WallHour(k: int): (h: int)
    requires 0 <= k < SlotCount
    ensures 0 <= h < 24
  {
    (StartHour + k / 2) % 24
  }

  function SlotMinute(k: int): (m: int)
    requires 0 <= k < SlotCount
    ensures m == 0 || m == 30
  {
    if k % 2 == 0 then 0 else 30
  }

  function SlotLabel(k: int): string
    requires 0 <= k < SlotCount
  {
    Label(WallHour(k), SlotMinute(k))
  }

  predicate IsPeakHour(hour: int) {
    18 <= hour <= 23
  }

  /** Price of one half hour before availability is considered: half the
      hourly rate, with the 1.2 peak multiplier. */
  function HalfHourPrice(turf: Turf, isPeak: bool): real {
    (if isPeak then turf.basePricePerHour * 1.2 else turf.basePricePerHour) / 2.0
  }

  /** A booking takes the slot labelled `slotTime` away from this turf and date. */
  predicate Blocks(b: Booking, turf: Turf, dateStr: string, slotTime: string) {
    b.turfId == turf.id && b.date == dateStr && b.status != Cancelled &&
    CheckOverlap(slotTime, SlotMinutes, b.startTime, b.durationMinutes)
  }

  predicate IsBooked(turf: Turf, dateStr: string, bookings: seq<Booking>, slotTime: string) {
    exists i | 0 <= i < |bookings| :: Blocks(bookings[i], turf, dateStr, slotTime)
  }

  /** The slot the loop pushes for hour `hour` and label `slotTime`. */
  function MakeSlot(turf: Turf, dateStr: string, bookings: seq<Booking>, hour: int, slotTime: string): TimeSlot {
    var isPeak := IsPeakHour(hour);
    var booked := IsBooked(turf, dateStr, bookings, slotTime);
    TimeSlot(slotTime, !booked, isPeak, if booked then 0.0 else HalfHourPrice(turf, isPeak))
  }

  function SlotAt(turf: Turf, dateStr: string, bookings: seq<Booking>, k: int): TimeSlot
    requires 0 <= k < SlotCount
  {
    MakeSlot(turf, dateStr, bookings, WallHour(k), SlotLabel(k))
  }

  /** The slot sequence `generateTimeSlots` returns, as a value. */
  function DaySlots(turf: Turf, dateStr: string, bookings: seq<Booking>): (r: seq<TimeSlot>)
    ensures |r| == SlotCount
  {
    seq(SlotCount, k requires 0 <= k < SlotCount => SlotAt(turf, dateStr, bookings, k))
  }

  /** The slot the loop body writes out field by field, at hour `i` and
      minute index `j`, is slot `2 * (i - 6) + j` of the day. */
  lemma PushedSlot(turf: Turf, dateStr: string, bookings: seq<Booking>, i: int, j: int)
    requires StartHour <= i < EndHour && 0 <= j < 2
    ensures 0 <= 2 * (i - StartHour) + j < SlotCount
    ensures SlotAt(turf, dateStr, bookings, 2 * (i - StartHour) + j) ==
      var hour := i % 24;
      var timeLabel := TwoDigits(hour) + ":" + TwoDigits(30 * j);
      var isPeak := 18 <= hour && hour <= 23;
      var price := if isPeak then turf.basePricePerHour * 1.2 else turf.basePricePerHour;
      var isBooked := IsBooked(turf, dateStr, bookings, timeLabel);
      TimeSlot(timeLabel, !isBooked, isPeak, if isBooked then 0.0 else price / 2.0)
  {
    var k := 2 * (i - StartHour) + j;
    var hour := i % 24;
    var timeLabel := TwoDigits(hour) + ":" + TwoDigits(30 * j);
    assert SlotAt(turf, dateStr, bookings, k) == MakeSlot(turf, dateStr, bookings, hour, timeLabel) by {
      assert k / 2 == i - StartHour && k % 2 == j;
      assert WallHour(k) == hour && SlotMinute(k) == 30 * j;
    }
    MakeSlotFields(turf, dateStr, bookings, hour, timeLabel);
  }

  /** `MakeSlot` written out as the loop body builds the slot. */
  lemma MakeSlotFields(turf: Turf, dateStr: string, bookings: seq<Booking>, hour: int, timeLabel: string)
    ensures MakeSlot(turf, dateStr, bookings, hour, timeLabel) ==
      var isPeak := 18 <= hour && hour <= 23;
      var price := if isPeak then turf.basePricePerHour * 1.2 else turf.basePricePerHour;
      var isBooked := IsBooked(turf, dateStr, bookings, timeLabel);
      TimeSlot(timeLabel, !isBooked, isPeak, if isBooked then 0.0 else price / 2.0)
  {
  }

  /** `generateTimeSlots`: hours 6 to 25, wrapped with `% 24`, two slots each. */
  method GenerateTimeSlots(turf: Turf, dateStr: string, existingBookings: seq<Booking>) returns (slots: seq<TimeSlot>)
    ensures |slots| == SlotCount
    ensures slots == DaySlots(turf, dateStr, existingBookings)
  {
    slots := [];
    var i := StartHour;
    while i < EndHour
      invariant StartHour <= i <= EndHour
      invariant |slots| == 2 * (i - StartHour)
      invariant forall k | 0 <= k < |slots| :: slots[k] == SlotAt(turf, dateStr, existingBookings, k)
    {
      var hour := i % 24;
      var hourStr := TwoDigits(hour);
      var minutes := ["00", "30"];
      for j := 0 to 2
        invariant |slots| == 2 * (i - StartHour) + j
        invariant forall k | 0 <= k < |slots| :: slots[k] == SlotAt(turf, dateStr, existingBookings, k)
      {
        var timeLabel := hourStr + ":" + minutes[j];
        assert minutes[j] == TwoDigits(30 * j);
        var isPeak := 18 <= hour && hour <= 23;
        var price := if isPeak then turf.basePricePerHour * 1.2 else turf.basePricePerHour;
        var isBooked := IsBooked(turf, dateStr, existingBookings, timeLabel);
        var slot := TimeSlot(timeLabel, !isBooked, isPeak, if isBooked then 0.0 else price / 2.0);
        PushedSlot(turf, dateStr, existingBookings, i, j);
        slots := slots + [slot];
      }
      i := i + 1;
    }
  }

  // ---------------------------------------------------------------------
  // What the slot sequence promises
  // ---------------------------------------------------------------------

  /** Minute of the wall clock at which slot `k` starts: 06:00 plus
      `30 * k` minutes, folded back into one day. */
  function WallMinute(k: int): (t: int)
    requires 0 <= k < SlotCount
    ensures 0 <= t < 1440
  {
    (StartHour * 60 + SlotMinutes * k) % 1440
  }

  /** The hour and minute of slot `k` without the wrap-around: the hours
      after midnight are 18 less than the unwrapped ones. */
  lemma WallClock(k: int)
    requires 0 <= k < SlotCount
    ensures WallHour(k) == if k < 36 then 6 + k / 2 else k / 2 - 18
    ensures SlotMinute(k) == 30 * (k % 2)
    ensures WallHour(k) * 60 + SlotMinute(k) == WallMinute(k)
    ensures k < 36 ==> WallMinute(k) == 360 + 30 * k
    ensures 36 <= k ==> WallMinute(k) == 30 * k - 1080
  {
    assert k == 2 * (k / 2) + k % 2;
    if k < 36 {
      assert 6 + k / 2 < 24;
      assert 360 + 30 * k < 1440;
    } else {
      assert 24 <= 6 + k / 2 < 48;
      assert 1440 <= 360 + 30 * k < 2880;
    }
  }

  /** Each slot label reads back as its wall-clock start: slots after
      midnight read as 0..90, not as 1440..1530. */
  lemma SlotStart(k: int)
    requires 0 <= k < SlotCount
    ensures ParseTime(SlotLabel(k)) == Some(WallMinute(k))
    ensures k < 36 ==> WallMinute(k) == 360 + 30 * k
    ensures 36 <= k ==> WallMinute(k) == 30 * k - 1080
  {
    ParseLabel(WallHour(k), SlotMinute(k));
    WallClock(k);
  }

  /** No two slots of a day carry the same label. */
  lemma SlotLabelsDistinct(j: int, k: int)
    requires 0 <= j < SlotCount && 0 <= k < SlotCount && j != k
    ensures SlotLabel(j) != SlotLabel(k)
  {
    SlotStart(j);
    SlotStart(k);
  }

  lemma SlotTime(turf: Turf, dateStr: string, bookings: seq<Booking>, k: int)
    requires 0 <= k < SlotCount
    ensures DaySlots(turf, dateStr, bookings)[k].time == SlotLabel(k)
  {
    assert DaySlots(turf, dateStr, bookings)[k] == SlotAt(turf, dateStr, bookings, k);
  }

  /** The day runs from 06:00 through 23:30, then continues after midnight
      from 00:00 up to 01:30. */
  lemma SlotLabelsInOrder(turf: Turf, dateStr: string, bookings: seq<Booking>, k: int)
    requires 0 <= k < SlotCount
    ensures DaySlots(turf, dateStr, bookings)[k].time ==
      Label(if k < 36 then 6 + k / 2 else k / 2 - 18, 30 * (k % 2))
  {
    SlotTime(turf, dateStr, bookings, k);
    WallClock(k);
  }

  lemma BoundaryLabelText()
    ensures SlotLabel(0) == "06:00" && SlotLabel(35) == "23:30"
    ensures SlotLabel(36) == "00:00" && SlotLabel(39) == "01:30"
  {
    assert SlotLabel(0) == "06:00" by {
      assert SlotLabel(0) == Label(6, 0);
    }
    assert SlotLabel(35) == "23:30" by {
      assert SlotLabel(35) == Label(23, 30);
    }
    assert SlotLabel(36) == "00:00" by {
      assert SlotLabel(36) == Label(0, 0);
    }
    assert SlotLabel(39) == "01:30" by {
      assert SlotLabel(39) == Label(1, 30);
    }
  }

  /** The first slot, the last one before midnight, the first one after it
      and the last one of the day. */
  lemma BoundaryLabels(turf: Turf, dateStr: string, bookings: seq<Booking>)
    ensures DaySlots(turf, dateStr, bookings)[0].time == "06:00"
    ensures DaySlots(turf, dateStr, bookings)[35].time == "23:30"
    ensures DaySlots(turf, dateStr, bookings)[36].time == "00:00"
    ensures DaySlots(turf, dateStr, bookings)[39].time == "01:30"
  {
    BoundaryLabelText();
    SlotTime(turf, dateStr, bookings, 0);
    SlotTime(turf, dateStr, bookings, 35);
    SlotTime(turf, dateStr, bookings, 36);
    SlotTime(turf, dateStr, bookings, 39);
  }

  /** Read as wall-clock minutes, the labels increase by 30 up to 23:30
      and again from 00:00 to 01:30. */
  lemma SlotsChronological(turf: Turf, dateStr: string, bookings: seq<Booking>, j: int, k: int)
    requires 0 <= j < k < SlotCount
    ensures ParseTime(DaySlots(turf, dateStr, bookings)[j].time).Some?
    ensures ParseTime(DaySlots(turf, dateStr, bookings)[k].time).Some?
    ensures (k < 36 || 36 <= j) ==>
      ParseTime(DaySlots(turf, dateStr, bookings)[k].time).value - ParseTime(DaySlots(turf, dateStr, bookings)[j].time).value == 30 * (k - j)
  {
    SlotStart(j);
    SlotStart(k);
  }

  lemma {:induction false} PeakHours(k: int)
    requires 0 <= k < SlotCount
    ensures IsPeakHour(WallHour(k)) <==> 24 <= k < 36
  {
    if k < 36 {
      assert WallHour(k) == 6 + k / 2;
    } else {
      assert WallHour(k) == k / 2 - 18;
    }
  }

  /** Peak pricing applies to 18:00 through 23:30 only; the slots after
      midnight are off-peak. An open slot costs 0.6 of the hourly rate at
      peak and 0.5 otherwise; a taken one is priced 0. */
  lemma PeakSlots(turf: Turf, dateStr: string, bookings: seq<Booking>, k: int)
    requires 0 <= k < SlotCount
    ensures DaySlots(turf, dateStr, bookings)[k].isPeak <==> 24 <= k < 36
    ensures DaySlots(turf, dateStr, bookings)[k].price ==
      if !DaySlots(turf, dateStr, bookings)[k].available then 0.0
      else if 24 <= k < 36 then turf.basePricePerHour * 0.6
      else turf.basePricePerHour * 0.5
  {
    var slot := DaySlots(turf, dateStr, bookings)[k];
    assert slot == SlotAt(turf, dateStr, bookings, k);
    PeakHours(k);
    assert slot.available ==> slot.price == HalfHourPrice(turf, 24 <= k < 36);
  }

  /** A slot is unavailable exactly when some live booking for the same turf
      and date overlaps it. */
  lemma AvailableIff(turf: Turf, dateStr: string, bookings: seq<Booking>, k: int)
    requires 0 <= k < SlotCount
    ensures !DaySlots(turf, dateStr, bookings)[k].available <==>
      exists b | b in bookings ::
        b.turfId == turf.id && b.date == dateStr && b.status != Cancelled &&
        CheckOverlap(DaySlots(turf, dateStr, bookings)[k].time, 30, b.startTime, b.durationMinutes)
  {
    var lbl := SlotLabel(k);
    if !DaySlots(turf, dateStr, bookings)[k].available {
      var i :| 0 <= i < |bookings| && Blocks(bookings[i], turf, dateStr, lbl);
      assert bookings[i] in bookings;
    }
  }

  /** Cancelled bookings, and bookings of other turfs or dates, never take a
      slot away: with none but those, the whole day is open. */
  lemma AllAvailableWithoutLiveBookings(turf: Turf, dateStr: string, bookings: seq<Booking>)
    requires forall b | b in bookings :: b.turfId != turf.id || b.date != dateStr || b.status == Cancelled
    ensures forall k | 0 <= k < SlotCount :: DaySlots(turf, dateStr, bookings)[k].available
  {
    forall k | 0 <= k < SlotCount
      ensures !IsBooked(turf, dateStr, bookings, SlotLabel(k))
    {
      forall i | 0 <= i < |bookings|
        ensures !Blocks(bookings[i], turf, dateStr, SlotLabel(k))
      {
        assert bookings[i] in bookings;
      }
    }
  }

  /** Appending a booking never frees a slot, and appending a cancelled one
      changes nothing. */
  lemma AppendBooking(turf: Turf, dateStr: string, bookings: seq<Booking>, b: Booking, k: int)
    requires 0 <= k < SlotCount
    ensures DaySlots(turf, dateStr, bookings + [b])[k].available ==> DaySlots(turf, dateStr, bookings)[k].available
    ensures b.status == Cancelled ==> DaySlots(turf, dateStr, bookings + [b])[k] == DaySlots(turf, dateStr, bookings)[k]
  {
    var lbl := SlotLabel(k);
    var more := bookings + [b];
    assert DaySlots(turf, dateStr, more)[k] == SlotAt(turf, dateStr, more, k);
    assert DaySlots(turf, dateStr, bookings)[k] == SlotAt(turf, dateStr, bookings, k);
    if IsBooked(turf, dateStr, bookings, lbl) {
      var i :| 0 <= i < |bookings| && Blocks(bookings[i], turf, dateStr, lbl);
      assert more[i] == bookings[i];
    }
    if b.status == Cancelled && IsBooked(turf, dateStr, more, lbl) {
      var i :| 0 <= i < |more| && Blocks(more[i], turf, dateStr, lbl);
      assert i < |bookings| && bookings[i] == more[i];
    }
  }

  /** With one live booking that starts on an `HH:MM` lbl, slot `k` is
      taken exactly when its wall-clock half hour overlaps the booking. */
  lemma OneBooking(turf: Turf, dateStr: string, b: Booking, h: int, m: int, k: int)
    requires 0 <= h < 100 && 0 <= m < 100 && b.startTime == Label(h, m)
    requires b.turfId == turf.id && b.date == dateStr && b.status != Cancelled
    requires 0 <= k < SlotCount
    ensures !DaySlots(turf, dateStr, [b])[k].available <==>
      Overlap(WallMinute(k), WallMinute(k) + 30, h * 60 + m, h * 60 + m + b.durationMinutes)
  {
    SlotStart(k);
    ParseLabel(h, m);
    assert DaySlots(turf, dateStr, [b])[k] == SlotAt(turf, dateStr, [b], k);
    if !DaySlots(turf, dateStr, [b])[k].available {
      var i :| 0 <= i < 1 && Blocks([b][i], turf, dateStr, SlotLabel(k));
    } else {
      assert !Blocks([b][0], turf, dateStr, SlotLabel(k));
    }
  }

  /** A confirmed booking 10:00 to 11:30 takes 10:00, 10:30 and 11:00 and
      nothing else; the same booking cancelled takes nothing. */
  lemma TenOClockBooking(turf: Turf, dateStr: string, b: Booking, k: int)
    requires b.turfId == turf.id && b.date == dateStr && b.startTime == "10:00" && b.durationMinutes == 90
    requires 0 <= k < SlotCount
    ensures b.status == Confirmed ==> (!DaySlots(turf, dateStr, [b])[k].available <==> 8 <= k <= 10)
    ensures b.status == Cancelled ==> DaySlots(turf, dateStr, [b])[k].available
  {
    LabelText();
    if b.status == Confirmed {
      OneBooking(turf, dateStr, b, 10, 0, k);
      SlotStart(k);
    } else if b.status == Cancelled {
      AllAvailableWithoutLiveBookings(turf, dateStr, [b]);
    }
  }

  /** A confirmed booking 18:00 to 19:00 takes the 18:00 and 18:30 slots;
      19:00 stays open, because intervals that only touch do not overlap. */
  lemma EveningBooking(turf: Turf, dateStr: string, b: Booking, k: int)
    requires b.turfId == turf.id && b.date == dateStr && b.status == Confirmed
    requires b.startTime == "18:00" && b.durationMinutes == 60
    requires 0 <= k < SlotCount
    ensures !DaySlots(turf, dateStr, [b])[k].available <==> k == 24 || k == 25
  {
    LabelText();
    OneBooking(turf, dateStr, b, 18, 0, k);
    SlotStart(k);
  }

  /** Times past midnight are not unwrapped: a booking from 23:30 lasting an
      hour takes the 23:30 slot and nothing else; 00:00 stays open. */
  lemma MidnightNotUnwrapped(turf: Turf, dateStr: string, b: Booking, k: int)
    requires b.turfId == turf.id && b.date == dateStr && b.status == Confirmed
    requires b.startTime == "23:30" && b.durationMinutes == 60
    requires 0 <= k < SlotCount
    ensures !DaySlots(turf, dateStr, [b])[k].available <==> k == 35
  {
    LabelText();
    OneBooking(turf, dateStr, b, 23, 30, k);
    SlotStart(k);
  }
}
