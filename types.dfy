/** Record shapes and closed enumerations of the turf booking storefront. */
module Types {

  datatype Option<+T> = None | Some(value: T)

  /** The two sport categories a turf can belong to. */
  datatype TurfType = Cricket | Pickleball

  /** A bookable venue. Reference data: never changed after start-up. */
  datatype Turf = Turf(
    id: string,
    name: string,
    kind: TurfType,
    basePricePerHour: real,
    image: string,
    description: string,
    features: seq<string>)

  datatype Status = Confirmed | Cancelled | Completed

  datatype PaymentStatus = Paid | Partial | Pending

  datatype PaymentMethod = Online | Cash

  /** A reservation. `date` is meant to be `YYYY-MM-DD` and `startTime` `HH:mm`,
      but nothing enforces either: they are plain strings. */
  datatype Booking = Booking(
    id: string,
    turfId: string,
    date: string,
    startTime: string,
    durationMinutes: int,
    customerName: string,
    customerPhone: string,
    totalAmount: real,
    status: Status,
    paymentStatus: PaymentStatus,
    paymentMethod: PaymentMethod,
    timestamp: int)

  /** One half-hour cell of the booking grid. */
  datatype TimeSlot = TimeSlot(time: string, available: bool, isPeak: bool, price: real)

  /** The partial booking handed from slot selection to checkout: the five
      fields the booking page fills in. The empty draft `{}` is `None`. */
  datatype Draft = Draft(
    turfId: string,
    date: string,
    startTime: string,
    durationMinutes: int,
    totalAmount: real)

  predicate IsDigit(c: char) {
    '0' <= c <= '9'
  }

  /** The `HH:mm` shape: two digits, a colon, two digits. */
  predicate IsTimeLabel(s: string) {
    |s| == 5 && IsDigit(s[0]) && IsDigit(s[1]) && s[2] == ':' && IsDigit(s[3]) && IsDigit(s[4])
  }

  function Digit(d: int): (c: char)
    requires 0 <= d < 10
    ensures IsDigit(c)
  {
    (48 + d) as char
  }

  /** Value of a character that is a decimal digit. */
  function DigitValue(c: char): (d: int)
    requires IsDigit(c)
    ensures 0 <= d < 10
  {
    c as int - 48
  }
}
