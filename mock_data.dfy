/** The turf catalogue and the booking store. The browser's storage slot
    holding the bookings as one JSON array becomes a sequence field of a
    `BookingStore` object; reading and writing it in full is assignment. */
module Store {
  import opened Types

  const Turfs: seq<Turf> := [
    Turf(
      "turf-1",
      "Hercules Cricket Ground",
      Cricket,
      1200.0,
      "https://lh3.googleusercontent.com/p/AF1QipOyqW9gcQpBcRqDZRKp08wm8_cnV4-za6l5b2Wn=s1360-w1360-h1020-rw",
      "Professional grade cricket turf with ample run-up area, high nets, and floodlights for night matches.",
      ["Box Cricket", "Night Lights", "Dugout Seating", "Bowling Machine Available"]),
    Turf(
      "turf-2",
      "Pickleball Court A",
      Pickleball,
      800.0,
      "https://lh3.googleusercontent.com/gps-cs-s/AG0ilSx6-YGYIBObETobk8WkwA9o7tJ44AURxP2xjmjd8Jv2KCFMTC7FZl9985UexQOZwxDEmPpjHK5v6bKMppCI3uL96a_K9qW-JUfe1gf2B-VTl_Z0W3tkeYJsuxy5njv-X588qDJbTGOjTO_V=s1360-w1360-h1020-rw",
      "Standard size pickleball court with premium synthetic surface and anti-skid coating.",
      ["International Dimensions", "Anti-skid Surface", "Equipment Rental"])
  ]

  /** The catalogue: a cricket ground at 1200 an hour and a pickleball court
      at 800, with distinct ids. */
  lemma TurfCatalogue()
    ensures |Turfs| == 2 && Turfs[0].id != Turfs[1].id
    ensures Turfs[0].id == "turf-1" && Turfs[0].kind == Cricket && Turfs[0].basePricePerHour == 1200.0
    ensures Turfs[1].id == "turf-2" && Turfs[1].kind == Pickleball && Turfs[1].basePricePerHour == 800.0
  {
  }

  /** `turfs.find(t => t.id === id)`: the first turf with that id. */
  function FindTurfIn(turfs: seq<Turf>, id: string): (r: Option<Turf>)
    ensures r.None? <==> forall t | t in turfs :: t.id != id
    ensures r.Some? ==> r.value in turfs && r.value.id == id
  {
    if turfs == [] then None
    else if turfs[0].id == id then Some(turfs[0])
    else FindTurfIn(turfs[1..], id)
  }

  function FindTurf(id: string): Option<Turf> {
    FindTurfIn(Turfs, id)
  }

  /** Position of the first booking with this id, or -1: `findIndex`. */
  function IndexOf(bookings: seq<Booking>, id: string): (idx: int)
    ensures -1 <= idx < |bookings|
    ensures idx == -1 <==> forall j | 0 <= j < |bookings| :: bookings[j].id != id
    ensures idx != -1 ==> bookings[idx].id == id && forall j | 0 <= j < idx :: bookings[j].id != id
  {
    if bookings == [] then -1
    else if bookings[0].id == id then 0
    else
      var rest := IndexOf(bookings[1..], id);
      if rest == -1 then -1 else rest + 1
  }

  /** The list with the status of entry `idx` replaced; `idx == -1` leaves it
      as it is. */
  function SetStatusAt(bookings: seq<Booking>, idx: int, status: Status): (r: seq<Booking>)
    requires -1 <= idx < |bookings|
    ensures |r| == |bookings|
    ensures forall j | 0 <= j < |r| && j != idx :: r[j] == bookings[j]
    ensures idx != -1 ==> r[idx].status == status && r[idx].id == bookings[idx].id
  {
    if idx == -1 then bookings else bookings[idx := bookings[idx].(status := status)]
  }

  /** A status update changes the status of the first booking with the id
      and nothing else: no other booking, no other field, not the length or
      the order. An unknown id changes nothing. */
  lemma UpdateTouchesOnlyFirstMatch(bookings: seq<Booking>, id: string, status: Status)
    ensures |SetStatusAt(bookings, IndexOf(bookings, id), status)| == |bookings|
    ensures (forall j | 0 <= j < |bookings| :: bookings[j].id != id) ==>
      SetStatusAt(bookings, IndexOf(bookings, id), status) == bookings
    ensures forall j | 0 <= j < |bookings| ::
      SetStatusAt(bookings, IndexOf(bookings, id), status)[j] ==
        if j == IndexOf(bookings, id) then bookings[j].(status := status) else bookings[j]
  {
  }

  /** `findIndex` as the loop that runs it. */
  method FindIndex(bookings: seq<Booking>, id: string) returns (idx: int)
    ensures idx == IndexOf(bookings, id)
  {
    idx := 0;
    while idx < |bookings| && bookings[idx].id != id
      invariant 0 <= idx <= |bookings|
      invariant forall j | 0 <= j < idx :: bookings[j].id != id
    {
      idx := idx + 1;
    }
    if idx == |bookings| {
      idx := -1;
    }
  }

  /** The persisted booking list. */
  class BookingStore {
    var bookings: seq<Booking>

    /** Nothing stored yet: `getBookings` answers the empty list. */
    constructor()
      ensures bookings == []
    {
      bookings := [];
    }

    /** `getBookings`: the list as last written, in the order written. */
    function GetBookings(): (r: seq<Booking>)
      reads this
      ensures r == bookings
    {
      bookings
    }

    /** `saveBooking`: append at the end. */
    method SaveBooking(booking: Booking)
      modifies this
      ensures bookings == old(bookings) + [booking]
    {
      var current := GetBookings();
      bookings := current + [booking];
    }

    /** `updateBookingStatus`: set the status of the first booking with this
      id; with no such booking nothing is written. */
    method UpdateBookingStatus(id: string, status: Status)
      modifies this
      ensures bookings == SetStatusAt(old(bookings), IndexOf(old(bookings), id), status)
      ensures |bookings| == |old(bookings)|
    {
      var current := GetBookings();
      var idx := FindIndex(current, id);
      if idx != -1 {
        bookings := current[idx := current[idx].(status := status)];
      }
    }
  }
}
