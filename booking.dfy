/** The slot picker page: which turf and date are shown, the slots generated
    for them, the labels the customer has selected, the running total, the
    draft handed on to checkout, and the grouping of slots by time of day. */
module SlotSelection {
  import opened Types
  import opened Slots
  import Store

  // ---------------------------------------------------------------------
  // String order: the order `Array.prototype.sort` uses by default
  // ---------------------------------------------------------------------

  /** `a` sorts before `b`: character by character, a proper prefix first. */
  predicate Less(a: string, b: string)
    decreases |a|
  {
    if a == [] then b != []
    else if b == [] then false
    else a[0] < b[0] || (a[0] == b[0] && Less(a[1..], b[1..]))
  }

  lemma {:induction false} LessIrreflexive(a: string)
    ensures !Less(a, a)
    decreases |a|
  {
    if a != [] {
      LessIrreflexive(a[1..]);
    }
  }

  lemma {:induction false} LessAsymmetric(a: string, b: string)
    requires Less(a, b)
    ensures !Less(b, a)
    decreases |a|
  {
    if a != [] && b != [] && a[0] == b[0] {
      LessAsymmetric(a[1..], b[1..]);
    }
  }

  lemma {:induction false} LessTransitive(a: string, b: string, c: string)
    requires Less(a, b) && Less(b, c)
    ensures Less(a, c)
    decreases |a|
  {
    if a != [] && a[0] == b[0] && b[0] == c[0] {
      LessTransitive(a[1..], b[1..], c[1..]);
    }
  }

  lemma {:induction false} LessTotal(a: string, b: string)
    requires a != b
    ensures Less(a, b) || Less(b, a)
    decreases |a|
  {
    if a != [] && b != [] && a[0] == b[0] {
      assert a == [a[0]] + a[1..] && b == [b[0]] + b[1..];
      LessTotal(a[1..], b[1..]);
    }
  }

  /** Digits are characters in the order of their values. */
  lemma DigitOrder(d: int, e: int)
    requires 0 <= d < 10 && 0 <= e < 10
    ensures Digit(d) < Digit(e) <==> d < e
    ensures Digit(d) == Digit(e) <==> d == e
  {
  }

  /** Two numbers below 100 compare by their tens, then by their units. */
  lemma DigitPairOrder(a: int, b: int)
    requires 0 <= a < 100 && 0 <= b < 100
    ensures a < b <==> a / 10 < b / 10 || (a / 10 == b / 10 && a % 10 < b % 10)
    ensures a == b <==> a / 10 == b / 10 && a % 10 == b % 10
  {
    assert a == 10 * (a / 10) + a % 10 && b == 10 * (b / 10) + b % 10;
  }

  /** Two strings of one length compare by their first characters, then by
      the rest. */
  lemma LessStep(a: string, b: string)
    requires |a| == |b| && a != []
    ensures Less(a, b) <==> a[0] < b[0] || (a[0] == b[0] && Less(a[1..], b[1..]))
  {
  }

  /** For zero-padded labels the string order is the order of (hour,
      minute): sorting labels as text sorts them by wall-clock time. */
  lemma LabelOrder(h1: int, m1: int, h2: int, m2: int)
    requires 0 <= h1 < 100 && 0 <= m1 < 100 && 0 <= h2 < 100 && 0 <= m2 < 100
    ensures Less(Label(h1, m1), Label(h2, m2)) <==> h1 < h2 || (h1 == h2 && m1 < m2)
  {
    var a, b := Label(h1, m1), Label(h2, m2);
    DigitOrder(h1 / 10, h2 / 10);
    DigitOrder(h1 % 10, h2 % 10);
    DigitOrder(m1 / 10, m2 / 10);
    DigitOrder(m1 % 10, m2 % 10);
    DigitPairOrder(h1, h2);
    DigitPairOrder(m1, m2);
    assert a == [Digit(h1 / 10), Digit(h1 % 10), ':', Digit(m1 / 10), Digit(m1 % 10)];
    assert b == [Digit(h2 / 10), Digit(h2 % 10), ':', Digit(m2 / 10), Digit(m2 % 10)];
    assert !Less(a[5..], b[5..]);
    LessStep(a[4..], b[4..]);
    LessStep(a[3..], b[3..]);
    LessStep(a[2..], b[2..]);
    LessStep(a[1..], b[1..]);
    LessStep(a, b);
  }

  /** Every label after midnight sorts before every label of the evening
      before it, so a selection spanning midnight starts at its first
      after-midnight label. */
  lemma AfterMidnightSortsFirst(j: int, k: int)
    requires 0 <= j < 36 <= k < SlotCount
    ensures Less(SlotLabel(k), SlotLabel(j))
  {
    WallClock(j);
    WallClock(k);
    LabelOrder(WallHour(k), SlotMinute(k), WallHour(j), SlotMinute(j));
  }

  /** On either side of midnight, a later slot has a later label. */
  lemma LabelsAscendWithinSide(j: int, k: int)
    requires 0 <= j < k < SlotCount && (k < 36 || 36 <= j)
    ensures Less(SlotLabel(j), SlotLabel(k))
  {
    WallClock(j);
    WallClock(k);
    LabelOrder(WallHour(j), SlotMinute(j), WallHour(k), SlotMinute(k));
  }

  /** Strictly ascending: sorted and free of duplicates. */
  predicate Sorted(s: seq<string>) {
    forall i, j | 0 <= i < j < |s| :: Less(s[i], s[j])
  }

  /** Putting `x` in front of an ascending list whose members all sort after
      `x` keeps it ascending. */
  lemma ConsSorted(x: string, r: seq<string>)
    requires Sorted(r) && forall y | y in r :: Less(x, y)
    ensures Sorted([x] + r)
  {
    var c := [x] + r;
    forall i, j | 0 <= i < j < |c|
      ensures Less(c[i], c[j])
    {
      assert c[j] == r[j - 1];
      if i > 0 {
        assert c[i] == r[i - 1];
      }
    }
  }

  lemma SortedTail(s: seq<string>)
    requires Sorted(s) && s != []
    ensures Sorted(s[1..]) && forall y | y in s[1..] :: Less(s[0], y)
  {
  }

  /** Two strictly ascending lists with the same elements are the same list:
      the result of sorting is determined by what is sorted. */
  lemma {:induction false} SortedUnique(a: seq<string>, b: seq<string>)
    requires Sorted(a) && Sorted(b) && multiset(a) == multiset(b)
    ensures a == b
    decreases |a|
  {
    if a != [] {
      SameHead(a, b);
      SameTail(a, b);
      SortedTail(a);
      SortedTail(b);
      SortedUnique(a[1..], b[1..]);
      assert a == [a[0]] + a[1..] && b == [b[0]] + b[1..];
    }
  }

  /** Both lists start with the least label. */
  lemma SameHead(a: seq<string>, b: seq<string>)
    requires Sorted(a) && Sorted(b) && multiset(a) == multiset(b) && a != []
    ensures b != [] && a[0] == b[0]
  {
    assert a[0] in multiset(a);
    assert b[0] in multiset(b);
    SortedTail(a);
    SortedTail(b);
    assert a == [a[0]] + a[1..] && b == [b[0]] + b[1..];
    if a[0] != b[0] {
      assert a[0] in b[1..] && b[0] in a[1..];
      LessAsymmetric(a[0], b[0]);
    }
  }

  lemma SameTail(a: seq<string>, b: seq<string>)
    requires multiset(a) == multiset(b) && a != [] && b != [] && a[0] == b[0]
    ensures multiset(a[1..]) == multiset(b[1..])
  {
    assert a == [a[0]] + a[1..] && b == [b[0]] + b[1..];
    assert multiset(a[1..]) == multiset(a) - multiset{a[0]};
    assert multiset(b[1..]) == multiset(b) - multiset{b[0]};
  }

  /** `[...s, t].sort()` for a strictly ascending `s` without `t`. */
  function Insert(s: seq<string>, t: string): (r: seq<string>)
    ensures |r| == |s| + 1 && t in r
  {
    if s == [] then [t]
    else if Less(t, s[0]) then [t] + s
    else [s[0]] + Insert(s[1..], t)
  }

  lemma {:induction false} InsertElements(s: seq<string>, t: string)
    ensures multiset(Insert(s, t)) == multiset(s) + multiset{t}
    decreases |s|
  {
    if s != [] && !Less(t, s[0]) {
      InsertElements(s[1..], t);
      assert s == [s[0]] + s[1..];
    }
  }

  /** Adding a label that is not selected keeps the selection strictly
      ascending and adds exactly that label. */
  lemma {:induction false} InsertSorted(s: seq<string>, t: string)
    requires Sorted(s) && t !in s
    ensures Sorted(Insert(s, t))
    ensures multiset(Insert(s, t)) == multiset(s) + multiset{t}
    decreases |s|
  {
    InsertElements(s, t);
    if s == [] {
    } else {
      SortedTail(s);
      if Less(t, s[0]) {
        forall y | y in s
          ensures Less(t, y)
        {
          if y != s[0] {
            LessTransitive(t, s[0], y);
          }
        }
        ConsSorted(t, s);
      } else {
        InsertSorted(s[1..], t);
        InsertElements(s[1..], t);
        var rest := Insert(s[1..], t);
        LessTotal(t, s[0]);
        forall y | y in rest
          ensures Less(s[0], y)
        {
          assert y in multiset(rest);
        }
        ConsSorted(s[0], rest);
      }
    }
  }

  /** The order in which two labels are clicked does not matter. */
  lemma ClickOrderIrrelevant(s: seq<string>, a: string, b: string)
    requires Sorted(s) && a !in s && b !in s && a != b
    ensures Insert(Insert(s, a), b) == Insert(Insert(s, b), a)
  {
    InsertSorted(s, a);
    InsertSorted(s, b);
    assert b !in multiset(Insert(s, a)) && a !in multiset(Insert(s, b));
    InsertSorted(Insert(s, a), b);
    InsertSorted(Insert(s, b), a);
    SortedUnique(Insert(Insert(s, a), b), Insert(Insert(s, b), a));
  }

  /** `s.filter(x => x !== t)`. */
  function RemoveAll(s: seq<string>, t: string): (r: seq<string>)
    ensures t !in r && |r| <= |s|
    ensures forall x | x in r :: x in s
  {
    if s == [] then [] else (if s[0] == t then [] else [s[0]]) + RemoveAll(s[1..], t)
  }

  /** Removing the label at position `i`, the only place it occurs, leaves the
      others in their order. */
  lemma {:induction false} RemoveAllAt(s: seq<string>, i: int)
    requires 0 <= i < |s| && forall j | 0 <= j < |s| && j != i :: s[j] != s[i]
    ensures RemoveAll(s, s[i]) == s[..i] + s[i + 1..]
    decreases |s|
  {
    var t := s[i];
    if i == 0 {
      assert RemoveAll(s[1..], t) == s[1..] by {
        NotInRemoveAll(s[1..], t);
      }
    } else {
      RemoveAllAt(s[1..], i - 1);
      assert s[1..][..i - 1] == s[1..i] && s[1..][i..] == s[i + 1..];
      assert s[..i] == [s[0]] + s[1..i];
    }
  }

  lemma {:induction false} NotInRemoveAll(s: seq<string>, t: string)
    requires t !in s
    ensures RemoveAll(s, t) == s
    decreases |s|
  {
    if s != [] {
      NotInRemoveAll(s[1..], t);
    }
  }

  lemma SortedDistinct(s: seq<string>, i: int)
    requires Sorted(s) && 0 <= i < |s|
    ensures forall j | 0 <= j < |s| && j != i :: s[j] != s[i]
  {
    LessIrreflexive(s[i]);
  }

  lemma SortedWithout(s: seq<string>, i: int)
    requires Sorted(s) && 0 <= i < |s|
    ensures Sorted(s[..i] + s[i + 1..])
  {
    var r := s[..i] + s[i + 1..];
    forall a, b | 0 <= a < b < |r|
      ensures Less(r[a], r[b])
    {
      var a' := if a < i then a else a + 1;
      var b' := if b < i then b else b + 1;
      assert r[a] == s[a'] && r[b] == s[b'];
    }
  }

  /** Deselecting a label of a strictly ascending selection removes that one
      entry: the others keep their order, the list stays ascending. */
  lemma RemoveSorted(s: seq<string>, i: int)
    requires Sorted(s) && 0 <= i < |s|
    ensures RemoveAll(s, s[i]) == s[..i] + s[i + 1..]
    ensures Sorted(RemoveAll(s, s[i])) && s[i] !in RemoveAll(s, s[i])
    ensures multiset(RemoveAll(s, s[i])) == multiset(s) - multiset{s[i]}
  {
    SortedDistinct(s, i);
    RemoveAllAt(s, i);
    SortedWithout(s, i);
    RemovedElements(s, i);
  }

  lemma RemovedElements(s: seq<string>, i: int)
    requires 0 <= i < |s| && forall j | 0 <= j < |s| && j != i :: s[j] != s[i]
    ensures s[i] !in s[..i] + s[i + 1..]
    ensures multiset(s[..i] + s[i + 1..]) == multiset(s) - multiset{s[i]}
  {
    var r := s[..i] + s[i + 1..];
    assert s == s[..i] + [s[i]] + s[i + 1..];
    assert multiset(s) == multiset(r) + multiset{s[i]};
  }

  // ---------------------------------------------------------------------
  // Totals
  // ---------------------------------------------------------------------

  /** `slots.find(s => s.time === time)`: the first slot with that label. */
  function FindSlot(slots: seq<TimeSlot>, time: string): (r: Option<TimeSlot>)
    ensures r.Some? ==> r.value in slots && r.value.time == time
    ensures r.None? <==> forall x | x in slots :: x.time != time
  {
    if slots == [] then None
    else if slots[0].time == time then Some(slots[0])
    else FindSlot(slots[1..], time)
  }

  /** What one selected label adds to the total: its slot's price, or 0
      when no slot carries the label. */
  function PriceOf(slots: seq<TimeSlot>, time: string): (r: real)
    ensures (forall x | x in slots :: x.price >= 0.0) ==> r >= 0.0
  {
    match FindSlot(slots, time)
    case Some(slot) => slot.price
    case None => 0.0
  }

  /** `calculateTotal`'s reduce, summed exactly: nothing selected costs
      nothing, and with no negative price the total is not negative. */
  function TotalOf(selected: seq<string>, slots: seq<TimeSlot>): (r: real)
    ensures selected == [] ==> r == 0.0
    ensures (forall x | x in slots :: x.price >= 0.0) ==> r >= 0.0
  {
    if selected == [] then 0.0 else PriceOf(slots, selected[0]) + TotalOf(selected[1..], slots)
  }

  lemma {:induction false} FindFirst(slots: seq<TimeSlot>, k: int)
    requires 0 <= k < |slots| && forall j | 0 <= j < k :: slots[j].time != slots[k].time
    ensures FindSlot(slots, slots[k].time) == Some(slots[k])
    decreases k
  {
    if k > 0 {
      FindFirst(slots[1..], k - 1);
    }
  }

  /** In a generated day each label finds its own slot. */
  lemma FindInDay(turf: Turf, dateStr: string, bookings: seq<Booking>, k: int)
    requires 0 <= k < SlotCount
    ensures FindSlot(DaySlots(turf, dateStr, bookings), SlotLabel(k)) == Some(DaySlots(turf, dateStr, bookings)[k])
    ensures PriceOf(DaySlots(turf, dateStr, bookings), SlotLabel(k)) == DaySlots(turf, dateStr, bookings)[k].price
  {
    var slots := DaySlots(turf, dateStr, bookings);
    forall j | 0 <= j < k
      ensures slots[j].time != slots[k].time
    {
      SlotTime(turf, dateStr, bookings, j);
      SlotTime(turf, dateStr, bookings, k);
      SlotLabelsDistinct(j, k);
    }
    SlotTime(turf, dateStr, bookings, k);
    FindFirst(slots, k);
  }

  /** Selecting a label adds its price to the total. */
  lemma {:induction false} TotalInsert(s: seq<string>, t: string, slots: seq<TimeSlot>)
    ensures TotalOf(Insert(s, t), slots) == TotalOf(s, slots) + PriceOf(slots, t)
    decreases |s|
  {
    if s != [] && !Less(t, s[0]) {
      TotalInsert(s[1..], t, slots);
      assert Insert(s, t)[1..] == Insert(s[1..], t);
    }
  }

  lemma {:induction false} TotalAppend(a: seq<string>, b: seq<string>, slots: seq<TimeSlot>)
    ensures TotalOf(a + b, slots) == TotalOf(a, slots) + TotalOf(b, slots)
    decreases |a|
  {
    if a == [] {
      assert a + b == b;
    } else {
      TotalAppend(a[1..], b, slots);
      assert (a + b)[0] == a[0] && (a + b)[1..] == a[1..] + b;
    }
  }

  /** Deselecting the label at position `i` takes its price off the total. */
  lemma TotalRemoveAt(s: seq<string>, i: int, slots: seq<TimeSlot>)
    requires 0 <= i < |s|
    ensures TotalOf(s[..i] + s[i + 1..], slots) == TotalOf(s, slots) - PriceOf(slots, s[i])
  {
    TotalAppend(s[..i], s[i + 1..], slots);
    TotalAppend(s[..i], s[i..], slots);
    assert s == s[..i] + s[i..];
    assert s[i..][1..] == s[i + 1..];
  }

  lemma EveningLabelText()
    ensures SlotLabel(24) == "18:00" && SlotLabel(25) == "18:30"
  {
    assert SlotLabel(24) == Label(18, 0);
    assert SlotLabel(25) == Label(18, 30);
  }

  lemma TotalPair(a: string, b: string, slots: seq<TimeSlot>)
    ensures TotalOf([a, b], slots) == PriceOf(slots, a) + PriceOf(slots, b)
  {
    assert [a, b][1..] == [b] && [b][1..] == [];
    assert TotalOf([b], slots) == PriceOf(slots, b) + TotalOf([], slots);
    assert TotalOf([a, b], slots) == PriceOf(slots, a) + TotalOf([b], slots);
  }

  /** On the cricket ground with nothing booked, 18:00 and 18:30 are open
      peak half hours at 720 each. */
  lemma EveningSlots(dateStr: string)
    ensures DaySlots(Store.Turfs[0], dateStr, [])[24] == TimeSlot("18:00", true, true, 720.0)
    ensures DaySlots(Store.Turfs[0], dateStr, [])[25] == TimeSlot("18:30", true, true, 720.0)
    ensures PriceOf(DaySlots(Store.Turfs[0], dateStr, []), "18:00") == 720.0
    ensures PriceOf(DaySlots(Store.Turfs[0], dateStr, []), "18:30") == 720.0
  {
    var turf := Store.Turfs[0];
    EveningLabelText();
    SlotTime(turf, dateStr, [], 24);
    SlotTime(turf, dateStr, [], 25);
    FindInDay(turf, dateStr, [], 24);
    FindInDay(turf, dateStr, [], 25);
    AllAvailableWithoutLiveBookings(turf, dateStr, []);
    PeakSlots(turf, dateStr, [], 24);
    PeakSlots(turf, dateStr, [], 25);
  }

  /** Selecting both costs 1440, the hourly rate of 1200 with the 1.2 peak
      multiplier. */
  lemma PeakPairTotal(dateStr: string)
    ensures TotalOf(["18:00", "18:30"], DaySlots(Store.Turfs[0], dateStr, [])) == 1440.0
  {
    EveningSlots(dateStr);
    TotalPair("18:00", "18:30", DaySlots(Store.Turfs[0], dateStr, []));
  }

  // ---------------------------------------------------------------------
  // Grouping by time of day
  // ---------------------------------------------------------------------

  datatype Period = Morning | Afternoon | Evening | Night

  /** The leading run of digits of `s`. */
  function DigitPrefix(s: string): (r: string)
    ensures AllDigits(r)
  {
    if s != [] && IsDigit(s[0]) then [s[0]] + DigitPrefix(s[1..]) else []
  }

  /** `parseInt` for strings that start with digits; otherwise NaN (`None`). */
  function ParseInt(s: string): Option<nat> {
    var d := DigitPrefix(s);
    if d == [] then None else Some(DecimalValue(d))
  }

  /** The period a slot is listed under: its label's hour, read with
      `parseInt`, decides; an hour that is NaN or outside 6..20 means Night. */
  function PeriodOf(time: string): (r: Period)
    ensures r == Morning <==> ParseInt(Field(time)).Some? && 6 <= ParseInt(Field(time)).value < 12
    ensures r == Afternoon <==> ParseInt(Field(time)).Some? && 12 <= ParseInt(Field(time)).value < 16
    ensures r == Evening <==> ParseInt(Field(time)).Some? && 16 <= ParseInt(Field(time)).value < 21
    ensures r == Night <==> ParseInt(Field(time)).None? || ParseInt(Field(time)).value < 6 || 21 <= ParseInt(Field(time)).value
  {
    match ParseInt(Field(time))
    case Some(hour) =>
      if 6 <= hour < 12 then Morning
      else if 12 <= hour < 16 then Afternoon
      else if 16 <= hour < 21 then Evening
      else Night
    case None => Night
  }

  /** `s.filter(keep)`, for any test. */
  function Select(s: seq<TimeSlot>, keep: TimeSlot -> bool): (r: seq<TimeSlot>)
    ensures |r| <= |s|
  {
    if s == [] then []
    else Select(s[..|s| - 1], keep) + (if keep(s[|s| - 1]) then [s[|s| - 1]] else [])
  }

  function InPeriod(p: Period): TimeSlot -> bool {
    (slot: TimeSlot) => PeriodOf(slot.time) == p
  }

  /** The slots listed under `p`, in the order given. */
  function SlotsIn(slots: seq<TimeSlot>, p: Period): (r: seq<TimeSlot>)
    ensures |r| <= |slots|
  {
    Select(slots, InPeriod(p))
  }

  /** A slot is listed under a period exactly when it is one of the slots
      and its label belongs to that period. */
  lemma {:induction false} PeriodMembers(slots: seq<TimeSlot>, p: Period, x: TimeSlot)
    ensures x in SlotsIn(slots, p) <==> x in slots && PeriodOf(x.time) == p
    decreases |slots|
  {
    if slots != [] {
      var init := slots[..|slots| - 1];
      PeriodMembers(init, p, x);
      PeriodsStep(init, slots[|slots| - 1]);
      assert slots == init + [slots[|slots| - 1]];
    }
  }

  /** The four lists together are as long as the input: with
      `PeriodMembers`, nothing is lost and nothing is listed twice. */
  lemma {:induction false} PeriodsPartition(slots: seq<TimeSlot>)
    ensures |SlotsIn(slots, Morning)| + |SlotsIn(slots, Afternoon)| + |SlotsIn(slots, Evening)| + |SlotsIn(slots, Night)| == |slots|
    decreases |slots|
  {
    if slots != [] {
      var init := slots[..|slots| - 1];
      PeriodsPartition(init);
      PeriodsStep(init, slots[|slots| - 1]);
      assert slots == init + [slots[|slots| - 1]];
    }
  }

  lemma PeriodsStep(init: seq<TimeSlot>, x: TimeSlot)
    ensures forall p: Period :: SlotsIn(init + [x], p) == SlotsIn(init, p) + (if PeriodOf(x.time) == p then [x] else [])
  {
    forall p: Period
      ensures SlotsIn(init + [x], p) == SlotsIn(init, p) + (if PeriodOf(x.time) == p then [x] else [])
    {
      assert (init + [x])[..|init|] == init;
    }
  }

  /** A label's hour is read back by `parseInt`. */
  lemma LabelHour(h: int, m: int)
    requires 0 <= h < 100 && 0 <= m < 100
    ensures ParseInt(Field(Label(h, m))) == Some(h)
  {
    var s := Label(h, m);
    assert s == [s[0], s[1], ':', s[3], s[4]];
    assert Field(s[2..]) == [];
    assert Field(s[1..]) == [s[1]] + Field(s[2..]);
    assert Field(s) == TwoDigits(h);
    var t := TwoDigits(h);
    assert DigitPrefix(t[2..]) == [];
    assert DigitPrefix(t[1..]) == [t[1]] + DigitPrefix(t[2..]);
    assert DigitPrefix(t) == t;
    TwoDigitsValue(h);
  }

  /** The period slot `k` of a generated day belongs to. */
  function DayPeriodOf(k: int): Period {
    if k < 12 then Morning else if k < 20 then Afternoon else if k < 30 then Evening else Night
  }

  lemma DayPeriod(k: int)
    requires 0 <= k < SlotCount
    ensures PeriodOf(SlotLabel(k)) == DayPeriodOf(k)
  {
    LabelHour(WallHour(k), SlotMinute(k));
    if k < 36 {
      assert WallHour(k) == 6 + k / 2;
    } else {
      assert WallHour(k) == k / 2 - 18;
    }
  }

  lemma SelectRangeInit(s: seq<TimeSlot>, keep: TimeSlot -> bool, lo: int, hi: int)
    requires 0 <= lo <= hi <= |s| && s != []
    requires forall k | 0 <= k < |s| :: keep(s[k]) <==> lo <= k < hi
    ensures var n := |s| - 1; var lo', hi' := if lo < n then lo else n, if hi < n then hi else n;
      forall k | 0 <= k < n :: keep(s[..n][k]) <==> lo' <= k < hi'
    ensures keep(s[|s| - 1]) <==> lo < hi == |s|
  {
  }

  /** The last element, kept, extends the range. */
  lemma SelectLastIn(s: seq<TimeSlot>, keep: TimeSlot -> bool, lo: int)
    requires s != [] && 0 <= lo <= |s| - 1 && keep(s[|s| - 1])
    requires Select(s[..|s| - 1], keep) == s[lo..|s| - 1]
    ensures Select(s, keep) == s[lo..]
  {
    var n := |s| - 1;
    assert Select(s, keep) == s[lo..n] + [s[n]] by {
      assert Select(s, keep) == Select(s[..n], keep) + [s[n]];
    }
    assert s[lo..] == s[lo..n] + [s[n]];
  }

  /** The last element, dropped, leaves the range as it is. */
  lemma SelectLastOut(s: seq<TimeSlot>, keep: TimeSlot -> bool, lo: int, hi: int)
    requires s != [] && 0 <= lo <= hi <= |s| - 1 && !keep(s[|s| - 1])
    requires Select(s[..|s| - 1], keep) == s[lo..hi]
    ensures Select(s, keep) == s[lo..hi]
  {
  }

  /** Keeping exactly the positions `lo` to `hi` selects that slice. */
  lemma {:induction false} SelectRange(s: seq<TimeSlot>, keep: TimeSlot -> bool, lo: int, hi: int)
    requires 0 <= lo <= hi <= |s|
    requires forall k | 0 <= k < |s| :: keep(s[k]) <==> lo <= k < hi
    ensures Select(s, keep) == s[lo..hi]
    decreases |s|
  {
    if s != [] {
      var n := |s| - 1;
      var lo', hi' := if lo < n then lo else n, if hi < n then hi else n;
      SelectRangeInit(s, keep, lo, hi);
      assert Select(s[..n], keep) == s[lo'..hi'] by {
        SelectRange(s[..n], keep, lo', hi');
        assert s[..n][lo'..hi'] == s[lo'..hi'];
      }
      if keep(s[n]) {
        SelectLastIn(s, keep, lo');
      } else {
        SelectLastOut(s, keep, lo', hi');
      }
    }
  }

  /** The slots of a generated day listed under `p` are those of positions
      `lo` to `hi`. */
  lemma DayGroup(turf: Turf, dateStr: string, bookings: seq<Booking>, p: Period, lo: int, hi: int)
    requires 0 <= lo <= hi <= SlotCount
    requires forall k | 0 <= k < SlotCount :: DayPeriodOf(k) == p <==> lo <= k < hi
    ensures SlotsIn(DaySlots(turf, dateStr, bookings), p) == DaySlots(turf, dateStr, bookings)[lo..hi]
  {
    var slots := DaySlots(turf, dateStr, bookings);
    forall k | 0 <= k < SlotCount
      ensures InPeriod(p)(slots[k]) <==> lo <= k < hi
    {
      SlotTime(turf, dateStr, bookings, k);
      DayPeriod(k);
    }
    SelectRange(slots, InPeriod(p), lo, hi);
  }

  /** In a generated day: Morning is 06:00 to 11:30, Afternoon 12:00 to
      15:30, Evening 16:00 to 20:30 and Night 21:00 to 01:30. */
  lemma DayGrouping(turf: Turf, dateStr: string, bookings: seq<Booking>)
    ensures SlotsIn(DaySlots(turf, dateStr, bookings), Morning) == DaySlots(turf, dateStr, bookings)[..12]
    ensures SlotsIn(DaySlots(turf, dateStr, bookings), Afternoon) == DaySlots(turf, dateStr, bookings)[12..20]
    ensures SlotsIn(DaySlots(turf, dateStr, bookings), Evening) == DaySlots(turf, dateStr, bookings)[20..30]
    ensures SlotsIn(DaySlots(turf, dateStr, bookings), Night) == DaySlots(turf, dateStr, bookings)[30..]
  {
    DayGroup(turf, dateStr, bookings, Morning, 0, 12);
    DayGroup(turf, dateStr, bookings, Afternoon, 12, 20);
    DayGroup(turf, dateStr, bookings, Evening, 20, 30);
    DayGroup(turf, dateStr, bookings, Night, 30, 40);
  }

  // ---------------------------------------------------------------------
  // The page
  // ---------------------------------------------------------------------

  class BookingPage {
    var selectedTurf: Turf
    var selectedDate: string
    /** Which `Date` object holds the selected date: `None` for the one made
        at mount, `Some(i)` for the one behind the i-th date chip. The
        refresh effect compares these objects, not the days they stand for. */
    var selectedChip: Option<nat>
    var selectedSlots: seq<string>
    var availableSlots: seq<TimeSlot>

    /** The selection is kept strictly ascending. */
    ghost predicate Valid()
      reads this
    {
      Sorted(selectedSlots)
    }

    /** The first turf, today's date and the slots the mount-time refresh
        generates for them; nothing selected. */
    constructor(today: string, bookings: seq<Booking>)
      ensures Valid()
      ensures selectedTurf == Store.Turfs[0] && selectedDate == today && selectedChip == None && selectedSlots == []
      ensures availableSlots == DaySlots(Store.Turfs[0], today, bookings)
    {
      selectedTurf := Store.Turfs[0];
      selectedDate := today;
      selectedChip := None;
      selectedSlots := [];
      var slots := GenerateTimeSlots(Store.Turfs[0], today, bookings);
      availableSlots := slots;
    }

    /** The refresh effect: regenerate the slots from the stored bookings and
        drop the selection. */
    method RefreshSlots(bookings: seq<Booking>)
      modifies this`availableSlots, this`selectedSlots
      ensures Valid()
      ensures availableSlots == DaySlots(selectedTurf, selectedDate, bookings) && selectedSlots == []
    {
      availableSlots := GenerateTimeSlots(selectedTurf, selectedDate, bookings);
      selectedSlots := [];
    }

    /** Picking a turf; the effect only runs when the turf changes. */
    method SelectTurf(turf: Turf, bookings: seq<Booking>)
      requires Valid()
      modifies this
      ensures Valid() && selectedTurf == turf && selectedDate == old(selectedDate) && selectedChip == old(selectedChip)
      ensures turf == old(selectedTurf) ==>
        selectedSlots == old(selectedSlots) && availableSlots == old(availableSlots)
      ensures turf != old(selectedTurf) ==>
        selectedSlots == [] && availableSlots == DaySlots(turf, selectedDate, bookings)
    {
      if turf != selectedTurf {
        selectedTurf := turf;
        RefreshSlots(bookings);
      }
    }

    /** Clicking date chip `chip`, whose day is `dateStr`. The effect runs
        unless the chip clicked is the one already selected; in particular
        the first click on today's chip refreshes, since its `Date` is not
        the one made at mount. */
    method SelectDate(chip: nat, dateStr: string, bookings: seq<Booking>)
      requires Valid()
      modifies this
      ensures Valid() && selectedChip == Some(chip) && selectedTurf == old(selectedTurf)
      ensures old(selectedChip) == Some(chip) ==>
        selectedDate == old(selectedDate) && selectedSlots == old(selectedSlots) && availableSlots == old(availableSlots)
      ensures old(selectedChip) != Some(chip) ==>
        selectedDate == dateStr && selectedSlots == [] && availableSlots == DaySlots(selectedTurf, dateStr, bookings)
    {
      if selectedChip != Some(chip) {
        selectedChip := Some(chip);
        selectedDate := dateStr;
        RefreshSlots(bookings);
      }
    }

    /** `handleSlotClick`: a taken slot is ignored; a selected label is
        removed; any other label is added, keeping the list ascending. */
    method HandleSlotClick(slot: TimeSlot)
      requires Valid()
      modifies this`selectedSlots
      ensures Valid()
      ensures !slot.available ==> selectedSlots == old(selectedSlots)
      ensures slot.available && slot.time in old(selectedSlots) ==>
        slot.time !in selectedSlots && multiset(selectedSlots) == multiset(old(selectedSlots)) - multiset{slot.time}
      ensures slot.available && slot.time !in old(selectedSlots) ==>
        multiset(selectedSlots) == multiset(old(selectedSlots)) + multiset{slot.time}
      ensures slot.available ==>
        CalculateTotal() == old(CalculateTotal()) +
          (if slot.time in old(selectedSlots) then -PriceOf(availableSlots, slot.time) else PriceOf(availableSlots, slot.time))
    {
      if !slot.available {
        return;
      }
      if slot.time in selectedSlots {
        var i :| 0 <= i < |selectedSlots| && selectedSlots[i] == slot.time;
        RemoveSorted(selectedSlots, i);
        TotalRemoveAt(selectedSlots, i, availableSlots);
        selectedSlots := RemoveAll(selectedSlots, slot.time);
      } else {
        InsertSorted(selectedSlots, slot.time);
        TotalInsert(selectedSlots, slot.time, availableSlots);
        selectedSlots := Insert(selectedSlots, slot.time);
      }
    }

    function CalculateTotal(): (r: real)
      reads this
      ensures selectedSlots == [] ==> r == 0.0
      ensures (forall x | x in availableSlots :: x.price >= 0.0) ==> r >= 0.0
    {
      TotalOf(selectedSlots, availableSlots)
    }

    /** `handleProceed`: nothing without a selection; otherwise a draft that
        starts at the smallest selected label and lasts 30 minutes per
        selected slot, whether or not the slots are adjacent. Sorting the
        already ascending selection leaves it as it is (`SortedUnique`). */
    function HandleProceed(): (r: Option<Draft>)
      requires Valid()
      reads this
      ensures r.None? <==> selectedSlots == []
      ensures r.Some? ==> r.value.turfId == selectedTurf.id && r.value.date == selectedDate
      ensures r.Some? ==> r.value.startTime in selectedSlots
      ensures r.Some? ==> forall t | t in selectedSlots && t != r.value.startTime :: Less(r.value.startTime, t)
      ensures r.Some? ==> r.value.durationMinutes == 30 * |selectedSlots| && r.value.totalAmount == CalculateTotal()
    {
      if |selectedSlots| == 0 then None
      else Some(Draft(selectedTurf.id, selectedDate, selectedSlots[0], |selectedSlots| * 30, CalculateTotal()))
    }

    /** `slotsByPeriod`: one pass over the slots, pushing each onto the list
        of its period. */
    method SlotsByPeriod() returns (morning: seq<TimeSlot>, afternoon: seq<TimeSlot>, evening: seq<TimeSlot>, night: seq<TimeSlot>)
      ensures morning == SlotsIn(availableSlots, Morning) && afternoon == SlotsIn(availableSlots, Afternoon)
      ensures evening == SlotsIn(availableSlots, Evening) && night == SlotsIn(availableSlots, Night)
    {
      morning, afternoon, evening, night := [], [], [], [];
      var i := 0;
      while i < |availableSlots|
        invariant 0 <= i <= |availableSlots|
        decreases |availableSlots| - i
        invariant morning == SlotsIn(availableSlots[..i], Morning) && afternoon == SlotsIn(availableSlots[..i], Afternoon)
        invariant evening == SlotsIn(availableSlots[..i], Evening) && night == SlotsIn(availableSlots[..i], Night)
      {
        var slot := availableSlots[i];
        assert availableSlots[..i + 1][..i] == availableSlots[..i];
        match ParseInt(Field(slot.time)) {
        case Some(hour) =>
          if 6 <= hour < 12 {
            morning := morning + [slot];
          } else if 12 <= hour < 16 {
            afternoon := afternoon + [slot];
          } else if 16 <= hour < 21 {
            evening := evening + [slot];
          } else {
            night := night + [slot];
          }
        case None =>
          night := night + [slot];
        }
        i := i + 1;
      }
      assert availableSlots[..i] == availableSlots;
    }
  }

  /** After mount, picking a slot and then today's own chip: the chip's
      `Date` is a different object from the mount-time one, so the effect
      runs and the selection is dropped although the day is the same. */
  method TodayChipClearsSelection(today: string, bookings: seq<Booking>, slot: TimeSlot) returns (page: BookingPage)
    requires slot.available
    ensures page.selectedDate == today && page.selectedSlots == []
  {
    page := new BookingPage(today, bookings);
    page.HandleSlotClick(slot);
    page.SelectDate(0, today, bookings);
  }
}
