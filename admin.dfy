/** The owner's dashboard: the bookings newest first, the revenue and
    today's count, the ALL/TODAY filter and the cancel/complete actions. */
module Admin {
  import opened Types
  import Store

  datatype Filter = All | Today

  // ---------------------------------------------------------------------
  // Newest first
  // ---------------------------------------------------------------------

  /** Timestamps never increase along the list. */
  predicate NewestFirst(s: seq<Booking>) {
    forall i, j | 0 <= i < j < |s| :: s[i].timestamp >= s[j].timestamp
  }

  /** Place `x` before the first entry that is strictly older, so entries
      with equal timestamps keep their order. */
  function InsertByTime(s: seq<Booking>, x: Booking): (r: seq<Booking>)
    ensures |r| == |s| + 1
  {
    if s == [] then [x]
    else if s[0].timestamp < x.timestamp then [x] + s
    else [s[0]] + InsertByTime(s[1..], x)
  }

  /** The order the comparator `b.timestamp - a.timestamp` produces, built by
      inserting the entries one after the other. */
  function SortByTime(s: seq<Booking>): (r: seq<Booking>)
    ensures |r| == |s|
  {
    if s == [] then [] else InsertByTime(SortByTime(s[..|s| - 1]), s[|s| - 1])
  }

  lemma ConsNewest(x: Booking, r: seq<Booking>)
    requires NewestFirst(r) && forall y | y in r :: x.timestamp >= y.timestamp
    ensures NewestFirst([x] + r)
  {
    var c := [x] + r;
    forall i, j | 0 <= i < j < |c|
      ensures c[i].timestamp >= c[j].timestamp
    {
      assert c[j] == r[j - 1];
      if i > 0 {
        assert c[i] == r[i - 1];
      }
    }
  }

  lemma {:induction false} InsertByTimeElements(s: seq<Booking>, x: Booking)
    ensures multiset(InsertByTime(s, x)) == multiset(s) + multiset{x}
    decreases |s|
  {
    if s != [] && s[0].timestamp >= x.timestamp {
      InsertByTimeElements(s[1..], x);
      assert s == [s[0]] + s[1..];
    }
  }

  lemma {:induction false} InsertByTimeSorted(s: seq<Booking>, x: Booking)
    requires NewestFirst(s)
    ensures NewestFirst(InsertByTime(s, x))
    ensures multiset(InsertByTime(s, x)) == multiset(s) + multiset{x}
    decreases |s|
  {
    InsertByTimeElements(s, x);
    if s == [] {
    } else if s[0].timestamp < x.timestamp {
      ConsNewest(x, s);
    } else {
      InsertByTimeSorted(s[1..], x);
      var rest := InsertByTime(s[1..], x);
      forall y | y in rest
        ensures s[0].timestamp >= y.timestamp
      {
        assert y in multiset(rest);
      }
      ConsNewest(s[0], rest);
    }
  }

  /** The sorted list holds exactly the stored bookings, newest first. */
  lemma {:induction false} SortByTimeNewest(s: seq<Booking>)
    ensures NewestFirst(SortByTime(s))
    decreases |s|
  {
    if s != [] {
      var init := s[..|s| - 1];
      SortByTimeNewest(init);
      InsertByTimeSorted(SortByTime(init), s[|s| - 1]);
    }
  }

  lemma {:induction false} SortByTimeElements(s: seq<Booking>)
    ensures multiset(SortByTime(s)) == multiset(s)
    decreases |s|
  {
    if s != [] {
      var init, x := s[..|s| - 1], s[|s| - 1];
      calc {
        multiset(SortByTime(s));
        multiset(InsertByTime(SortByTime(init), x));
        { InsertByTimeElements(SortByTime(init), x); }
        multiset(SortByTime(init)) + multiset{x};
        { SortByTimeElements(init); }
        multiset(init) + multiset{x};
        { assert s == init + [x]; }
        multiset(s);
      }
    }
  }

  lemma SortByTimeCorrect(s: seq<Booking>)
    ensures NewestFirst(SortByTime(s))
    ensures multiset(SortByTime(s)) == multiset(s)
  {
    SortByTimeNewest(s);
    SortByTimeElements(s);
  }

  /** The mount-time `data.sort(...)`: one insertion per stored booking. */
  method SortNewestFirst(data: seq<Booking>) returns (sorted: seq<Booking>)
    ensures sorted == SortByTime(data)
    ensures NewestFirst(sorted) && multiset(sorted) == multiset(data)
  {
    sorted := [];
    var i := 0;
    while i < |data|
      invariant 0 <= i <= |data|
      invariant sorted == SortByTime(data[..i])
    {
      assert data[..i + 1][..i] == data[..i];
      sorted := InsertByTime(sorted, data[i]);
      i := i + 1;
    }
    assert data[..i] == data;
    SortByTimeCorrect(data);
  }

  // ---------------------------------------------------------------------
  // Revenue
  // ---------------------------------------------------------------------

  /** What one booking adds to the revenue: its amount unless cancelled. */
  function Earned(b: Booking): real {
    if b.status != Cancelled then b.totalAmount else 0.0
  }

  /** `totalRevenue`: the filter-then-reduce, summed exactly; with no
      negative amount it is not negative. */
  function Revenue(s: seq<Booking>): (r: real)
    ensures (forall b | b in s :: b.totalAmount >= 0.0) ==> r >= 0.0
  {
    if s == [] then 0.0 else Earned(s[0]) + Revenue(s[1..])
  }

  lemma {:induction false} RevenueAppend(a: seq<Booking>, b: seq<Booking>)
    ensures Revenue(a + b) == Revenue(a) + Revenue(b)
    decreases |a|
  {
    if a == [] {
      assert a + b == b;
    } else {
      RevenueAppend(a[1..], b);
      assert (a + b)[0] == a[0] && (a + b)[1..] == a[1..] + b;
    }
  }

  /** A list of cancelled bookings earns nothing. */
  lemma {:induction false} RevenueAllCancelled(s: seq<Booking>)
    requires forall i | 0 <= i < |s| :: s[i].status == Cancelled
    ensures Revenue(s) == 0.0
    decreases |s|
  {
    if s != [] {
      RevenueAllCancelled(s[1..]);
    }
  }

  /** Taking the same booking out of two reorderings of one list leaves
      reorderings of each other. */
  lemma MultisetTail(a: seq<Booking>, b: seq<Booking>, j: int)
    requires multiset(a) == multiset(b) && a != [] && 0 <= j < |b| && b[j] == a[0]
    ensures multiset(a[1..]) == multiset(b[..j] + b[j + 1..])
  {
    assert a == [a[0]] + a[1..];
    assert b == b[..j] + [b[j]] + b[j + 1..];
    assert multiset(b) == multiset(b[..j]) + multiset{b[j]} + multiset(b[j + 1..]);
    assert multiset(b[..j] + b[j + 1..]) == multiset(b[..j]) + multiset(b[j + 1..]);
    assert multiset(a) == multiset{a[0]} + multiset(a[1..]);
    assert multiset(a[1..]) == multiset(a) - multiset{a[0]};
    assert multiset(b[..j] + b[j + 1..]) == multiset(b) - multiset{b[j]};
  }

  lemma {:induction false} RevenueSplit(b: seq<Booking>, j: int)
    requires 0 <= j < |b|
    ensures Revenue(b) == Revenue(b[..j] + b[j + 1..]) + Earned(b[j])
    decreases j
  {
    if j == 0 {
      assert b[..j] + b[j + 1..] == b[1..];
    } else {
      var rest := b[1..][..j - 1] + b[1..][j..];
      RevenueSplit(b[1..], j - 1);
      assert (b[..j] + b[j + 1..])[0] == b[0] && (b[..j] + b[j + 1..])[1..] == rest;
    }
  }

  /** The revenue depends only on which bookings there are, not on their
      order: the dashboard's sorted copy earns what the store holds. */
  lemma {:induction false} RevenuePermutation(a: seq<Booking>, b: seq<Booking>)
    requires multiset(a) == multiset(b)
    ensures Revenue(a) == Revenue(b)
    decreases |a|
  {
    if a == [] {
      assert |b| == |multiset(b)| == 0;
    } else {
      assert a[0] in multiset(b);
      var j :| 0 <= j < |b| && b[j] == a[0];
      MultisetTail(a, b, j);
      RevenuePermutation(a[1..], b[..j] + b[j + 1..]);
      RevenueSplit(b, j);
    }
  }

  // ---------------------------------------------------------------------
  // Status changes
  // ---------------------------------------------------------------------

  /** The local list after a status change: every booking with the id
      gets the new status. */
  function MapStatus(s: seq<Booking>, id: string, status: Status): (r: seq<Booking>)
    ensures |r| == |s|
  {
    if s == [] then [] else [WithStatus(s[0], id, status)] + MapStatus(s[1..], id, status)
  }

  /** `b.id === id ? { ...b, status } : b`. */
  function WithStatus(b: Booking, id: string, status: Status): Booking {
    if b.id == id then b.(status := status) else b
  }

  /** Only bookings with the id change, and only in their status. */
  lemma {:induction false} MapStatusPointwise(s: seq<Booking>, id: string, status: Status, i: int)
    requires 0 <= i < |s|
    ensures MapStatus(s, id, status)[i] == if s[i].id == id then s[i].(status := status) else s[i]
    decreases i
  {
    if i > 0 {
      MapStatusPointwise(s[1..], id, status, i - 1);
    }
  }

  predicate UniqueIds(s: seq<Booking>) {
    forall i, j | 0 <= i < j < |s| :: s[i].id != s[j].id
  }

  /** With distinct ids the local map and the store's update by position
      make the same change. */
  lemma MapStatusMatchesStore(s: seq<Booking>, id: string, status: Status)
    requires UniqueIds(s)
    ensures MapStatus(s, id, status) == Store.SetStatusAt(s, Store.IndexOf(s, id), status)
  {
    var r := Store.SetStatusAt(s, Store.IndexOf(s, id), status);
    Store.UpdateTouchesOnlyFirstMatch(s, id, status);
    forall i | 0 <= i < |s|
      ensures MapStatus(s, id, status)[i] == r[i]
    {
      MapStatusPointwise(s, id, status, i);
    }
  }

  lemma {:induction false} MapStatusAppend(a: seq<Booking>, b: seq<Booking>, id: string, status: Status)
    ensures MapStatus(a + b, id, status) == MapStatus(a, id, status) + MapStatus(b, id, status)
    decreases |a|
  {
    if a == [] {
      assert a + b == b;
    } else {
      calc {
        MapStatus(a + b, id, status);
        { assert (a + b)[0] == a[0] && (a + b)[1..] == a[1..] + b; }
        [WithStatus(a[0], id, status)] + MapStatus(a[1..] + b, id, status);
        { MapStatusAppend(a[1..], b, id, status); }
        [WithStatus(a[0], id, status)] + (MapStatus(a[1..], id, status) + MapStatus(b, id, status));
        MapStatus(a, id, status) + MapStatus(b, id, status);
      }
    }
  }

  lemma MapStatusSplit(b: seq<Booking>, j: int, id: string, status: Status)
    requires 0 <= j < |b|
    ensures multiset(MapStatus(b, id, status)) ==
      multiset(MapStatus(b[..j] + b[j + 1..], id, status)) + multiset{MapStatus([b[j]], id, status)[0]}
  {
    assert b == b[..j] + ([b[j]] + b[j + 1..]);
    MapStatusAppend(b[..j], [b[j]] + b[j + 1..], id, status);
    MapStatusAppend([b[j]], b[j + 1..], id, status);
    MapStatusAppend(b[..j], b[j + 1..], id, status);
  }

  /** Reordered lists stay reorderings of each other after the same
      status change. */
  lemma {:induction false} MapStatusPermutation(a: seq<Booking>, b: seq<Booking>, id: string, status: Status)
    requires multiset(a) == multiset(b)
    ensures multiset(MapStatus(a, id, status)) == multiset(MapStatus(b, id, status))
    decreases |a|
  {
    if a == [] {
      assert |b| == |multiset(b)| == 0;
    } else {
      assert a[0] in multiset(b);
      var j :| 0 <= j < |b| && b[j] == a[0];
      MultisetTail(a, b, j);
      MapStatusPermutation(a[1..], b[..j] + b[j + 1..], id, status);
      MapStatusSplit(b, j, id, status);
      MapStatusSplit(a, 0, id, status);
      assert a[..0] + a[1..] == a[1..];
    }
  }

  /** Completing bookings that are not cancelled keeps the revenue. */
  lemma {:induction false} CompleteKeepsRevenue(s: seq<Booking>, id: string)
    requires forall i | 0 <= i < |s| && s[i].id == id :: s[i].status != Cancelled
    ensures Revenue(MapStatus(s, id, Completed)) == Revenue(s)
    decreases |s|
  {
    if s != [] {
      CompleteKeepsRevenue(s[1..], id);
    }
  }

  /** Cancelling the one live booking with an id takes its amount off the
      revenue. */
  lemma {:induction false} CancelLowersRevenue(s: seq<Booking>, k: int)
    requires UniqueIds(s) && 0 <= k < |s| && s[k].status != Cancelled
    ensures Revenue(MapStatus(s, s[k].id, Cancelled)) == Revenue(s) - s[k].totalAmount
    decreases |s|
  {
    var id := s[k].id;
    if k == 0 {
      assert MapStatus(s[1..], id, Cancelled) == s[1..] by {
        forall i | 0 <= i < |s| - 1
          ensures MapStatus(s[1..], id, Cancelled)[i] == s[1..][i]
        {
          MapStatusPointwise(s[1..], id, Cancelled, i);
        }
      }
    } else {
      CancelLowersRevenue(s[1..], k - 1);
    }
  }

  // ---------------------------------------------------------------------
  // Filters and actions
  // ---------------------------------------------------------------------

  /** `bookings.filter(b => b.date === todayStr)`. */
  function TodaysBookings(s: seq<Booking>, today: string): (r: seq<Booking>)
    ensures |r| <= |s|
  {
    if s == [] then []
    else (if s[0].date == today then [s[0]] else []) + TodaysBookings(s[1..], today)
  }

  /** TODAY keeps exactly the bookings dated today, each as often as the list
      holds it. */
  lemma {:induction false} TodaysBookingsExact(s: seq<Booking>, today: string)
    ensures forall b | b in TodaysBookings(s, today) :: b in s && b.date == today
    ensures forall b | b in s && b.date == today :: b in TodaysBookings(s, today)
    ensures forall b :: multiset(TodaysBookings(s, today))[b] == if b.date == today then multiset(s)[b] else 0
    decreases |s|
  {
    if s != [] {
      TodaysBookingsExact(s[1..], today);
      assert s == [s[0]] + s[1..];
    }
  }

  /** `filteredBookings`: ALL shows everything, TODAY no more. */
  function Filtered(filter: Filter, s: seq<Booking>, today: string): (r: seq<Booking>)
    ensures filter == All ==> r == s
    ensures |r| <= |s|
  {
    match filter
    case All => s
    case Today => TodaysBookings(s, today)
  }

  /** The transitions the row offers: cancel and complete, and only for a
      confirmed booking. */
  function OfferedActions(b: Booking): (r: seq<Status>)
    ensures r != [] <==> b.status == Confirmed
    ensures b.status == Confirmed ==> Cancelled in r && Completed in r
    ensures forall st | st in r :: st == Cancelled || st == Completed
  {
    if b.status == Confirmed then [Cancelled, Completed] else []
  }

  /** Cancelled and completed are terminal: after either offered transition
      nothing more is offered. */
  lemma Terminal(b: Booking, st: Status)
    requires st in OfferedActions(b)
    ensures OfferedActions(b.(status := st)) == []
    ensures b.status == Confirmed
  {
  }

  // ---------------------------------------------------------------------
  // The dashboard
  // ---------------------------------------------------------------------

  class AdminDashboard {
    var bookings: seq<Booking>
    var filter: Filter

    /** The list shown is a reordering of what the store holds. */
    ghost predicate Mirrors(store: Store.BookingStore)
      reads this, store
    {
      multiset(bookings) == multiset(store.bookings)
    }

    /** Mounting: the stored bookings, newest first; filter ALL. */
    constructor(store: Store.BookingStore)
      ensures Mirrors(store) && NewestFirst(bookings) && filter == All
      ensures bookings == SortByTime(store.bookings)
    {
      var stored := store.GetBookings();
      var sorted := SortNewestFirst(stored);
      bookings := sorted;
      filter := All;
    }

    /** `handleStatusChange`: the store updates the first booking with the
        id, the local list every booking with it. */
    method HandleStatusChange(store: Store.BookingStore, id: string, status: Status)
      requires Mirrors(store) && UniqueIds(store.bookings)
      modifies this, store
      ensures store.bookings == Store.SetStatusAt(old(store.bookings), Store.IndexOf(old(store.bookings), id), status)
      ensures bookings == MapStatus(old(bookings), id, status) && filter == old(filter)
      ensures Mirrors(store)
    {
      ghost var before := store.bookings;
      MapStatusMatchesStore(before, id, status);
      MapStatusPermutation(bookings, before, id, status);
      store.UpdateBookingStatus(id, status);
      bookings := MapStatus(bookings, id, status);
    }

    method SetFilter(f: Filter)
      modifies this`filter
      ensures filter == f
    {
      filter := f;
    }

    function TotalRevenue(): (r: real)
      reads this
      ensures (forall b | b in bookings :: b.totalAmount >= 0.0) ==> r >= 0.0
    {
      Revenue(bookings)
    }

    /** The "Total Bookings" card: every booking the dashboard holds. */
    function TotalCount(): (r: nat)
      reads this
      ensures r == |bookings|
    {
      |bookings|
    }

    /** The "Today's Slots" card: never more than the "Total Bookings" card. */
    function TodayCount(today: string): (r: nat)
      reads this
      ensures r <= TotalCount()
    {
      |TodaysBookings(bookings, today)|
    }

    /** The rows listed: every booking under ALL, exactly today's under TODAY. */
    function Shown(today: string): (r: seq<Booking>)
      reads this
      ensures filter == All ==> r == bookings
      ensures filter == Today ==> forall b | b in r :: b in bookings && b.date == today
      ensures filter == Today ==> forall b | b in bookings && b.date == today :: b in r
    {
      TodaysBookingsExact(bookings, today);
      Filtered(filter, bookings, today)
    }
  }

  /** The dashboard's revenue is the store's: sorting does not change it. */
  lemma DashboardRevenue(store: seq<Booking>)
    ensures Revenue(SortByTime(store)) == Revenue(store)
  {
    SortByTimeCorrect(store);
    RevenuePermutation(SortByTime(store), store);
  }
}
